/** Witnessed quote selection, `quote_policy.rs`: an exhaustive search over
    subsets of the quotes, in XOR order, for the set to pay. */
module QuoteSelection {
  import opened Prelude
  import opened Lexicographic
  import opened Sorting
  import MedianPayment

  const SINGLE_NODE_MIN_QUOTE_COUNT: nat := 1

  // The subsets visited

  predicate StrictlyAscends(x: seq<nat>) {
    forall i, j :: 0 <= i < j < |x| ==> x[i] < x[j]
  }

  /** A `k`-subset of the positions below `n`, in ascending order. */
  predicate IsSubset(n: nat, k: nat, x: seq<nat>) {
    |x| == k && StrictlyAscends(x) && forall i :: 0 <= i < |x| ==> x[i] < n
  }

  /** The subsets that extend `current` with positions from `start` on, in the
      order visited. */
  function Subsets(n: nat, k: nat, start: nat, current: seq<nat>): seq<seq<nat>>
    requires |current| <= k
    decreases n - start
  {
    if |current| == k then [current]
    else if start + (k - |current|) > n then []
    else Subsets(n, k, start + 1, current + [start]) + Subsets(n, k, start + 1, current)
  }

  predicate Extends(x: seq<nat>, current: seq<nat>, start: nat) {
    current <= x && (|current| < |x| ==> start <= x[|current|])
  }

  lemma {:induction false} SubsetsSound(n: nat, k: nat, start: nat, current: seq<nat>)
    requires |current| <= k && IsSubset(n, |current|, current)
    requires forall i :: 0 <= i < |current| ==> current[i] < start
    ensures forall x :: x in Subsets(n, k, start, current) ==> IsSubset(n, k, x) && Extends(x, current, start)
    decreases n - start
  {
    if |current| < k && start + (k - |current|) <= n {
      SubsetsSound(n, k, start + 1, current + [start]);
      SubsetsSound(n, k, start + 1, current);
      forall x | x in Subsets(n, k, start, current)
        ensures IsSubset(n, k, x) && Extends(x, current, start)
      {
        if x in Subsets(n, k, start + 1, current + [start]) {
          assert x[|current|] == (current + [start])[|current|];
        }
      }
    }
  }

  lemma ExtendsNext(n: nat, k: nat, start: nat, current: seq<nat>, x: seq<nat>)
    requires |current| < k && IsSubset(n, k, x) && Extends(x, current, start)
    ensures start + (k - |current|) <= n
    ensures x[|current|] == start ==> Extends(x, current + [start], start + 1)
    ensures x[|current|] != start ==> Extends(x, current, start + 1)
  {
    RoomLeft(n, k, x, |current|);
  }

  lemma {:induction false} SubsetsComplete(n: nat, k: nat, start: nat, current: seq<nat>, x: seq<nat>)
    requires |current| <= k && IsSubset(n, k, x) && Extends(x, current, start)
    ensures x in Subsets(n, k, start, current)
    decreases n - start
  {
    if |current| == k {
      assert x == current;
    } else {
      ExtendsNext(n, k, start, current, x);
      var next := if x[|current|] == start then current + [start] else current;
      hide Extends;
      SubsetsComplete(n, k, start + 1, next, x);
    }
  }

  lemma {:induction false} RoomLeft(n: nat, k: nat, x: seq<nat>, at: nat)
    requires IsSubset(n, k, x) && at < k
    ensures x[at] + (k - at) <= n
    decreases k - at
  {
    if at + 1 < k {
      RoomLeft(n, k, x, at + 1);
      assert x[at] < x[at + 1];
    }
  }

  predicate LexAscends(s: seq<seq<nat>>) {
    forall i, j {:trigger s[i], s[j]} :: 0 <= i < j < |s| ==> LexLess(s[i], s[j])
  }

  /** The subsets come in strictly ascending lexicographic order. */
  lemma {:induction false} SubsetsAscend(n: nat, k: nat, start: nat, current: seq<nat>)
    requires |current| <= k && IsSubset(n, |current|, current)
    requires forall i :: 0 <= i < |current| ==> current[i] < start
    ensures LexAscends(Subsets(n, k, start, current))
    decreases n - start
  {
    if |current| < k && start + (k - |current|) <= n {
      SubsetsAscend(n, k, start + 1, current + [start]);
      SubsetsAscend(n, k, start + 1, current);
      SubsetsSound(n, k, start + 1, current + [start]);
      SubsetsSound(n, k, start + 1, current);
      var a, b := Subsets(n, k, start + 1, current + [start]), Subsets(n, k, start + 1, current);
      forall i, j | 0 <= i < j < |a + b|
        ensures LexLess((a + b)[i], (a + b)[j])
      {
        if i < |a| <= j {
          Apart(n, k, start, current, a[i], b[j - |a|]);
        }
      }
    }
  }

  lemma Apart(n: nat, k: nat, start: nat, current: seq<nat>, x: seq<nat>, y: seq<nat>)
    requires |current| < k && IsSubset(n, k, x) && IsSubset(n, k, y)
    requires Extends(x, current + [start], start + 1) && Extends(y, current, start + 1)
    ensures LexLess(x, y)
  {
    assert x[|current|] == (current + [start])[|current|];
    assert x[..|current|] == current && y[..|current|] == current;
    LexAt(x, y, |current|);
  }

  /** Every subset of `k` positions is visited exactly once. */
  lemma EverySubsetOnce(n: nat, k: nat)
    ensures forall x :: x in Subsets(n, k, 0, []) <==> IsSubset(n, k, x)
    ensures NoDup(Subsets(n, k, 0, []))
  {
    SubsetsSound(n, k, 0, []);
    forall x | IsSubset(n, k, x)
      ensures x in Subsets(n, k, 0, [])
    {
      SubsetsComplete(n, k, 0, [], x);
    }
    SubsetsAscend(n, k, 0, []);
    var s := Subsets(n, k, 0, []);
    forall i, j | 0 <= i < j < |s|
      ensures s[i] != s[j]
    {
      LexIrreflexive(s[i]);
    }
  }

  /** Their number, by Pascal's rule. */
  function Choose(n: nat, k: nat): nat {
    if k == 0 then 1 else if n == 0 then 0 else Choose(n - 1, k - 1) + Choose(n - 1, k)
  }

  lemma {:induction false} ChooseNone(n: nat, k: nat)
    requires k > n
    ensures Choose(n, k) == 0
  {
    if n > 0 {
      ChooseNone(n - 1, k - 1);
      ChooseNone(n - 1, k);
    }
  }

  lemma {:induction false} SubsetsCounted(n: nat, k: nat, start: nat, current: seq<nat>)
    requires |current| <= k && start <= n
    ensures |Subsets(n, k, start, current)| == Choose(n - start, k - |current|)
    decreases n - start
  {
    if |current| < k {
      if start + (k - |current|) > n {
        ChooseNone(n - start, k - |current|);
      } else {
        SubsetsCounted(n, k, start + 1, current + [start]);
        SubsetsCounted(n, k, start + 1, current);
      }
    }
  }

  // The search

  datatype Quote<K> = Quote(issuer: K, price: nat)

  /** What is searched: the quotes in XOR order, the vote table, and how many votes
      a paid issuer needs. */
  datatype Ballot<K(==)> = Ballot(quotes: seq<Quote<K>>, voters: map<K, set<K>>, required: nat) {
    predicate InRange(x: seq<nat>) {
      x != [] && forall i :: 0 <= i < |x| ==> x[i] < |quotes|
    }

    function Prices(x: seq<nat>): (p: seq<nat>)
      requires InRange(x)
      ensures |p| == |x| && forall i :: 0 <= i < |p| ==> p[i] == quotes[x[i]].price
    {
      seq(|x|, i requires 0 <= i < |x| => quotes[x[i]].price)
    }

    /** The issuer that a payment for these quotes, in this order, pays. */
    function Paid(x: seq<nat>): K
      requires InRange(x)
    {
      quotes[x[MedianPayment.MedianIndex(Prices(x))]].issuer
    }

    predicate Supported(k: K) {
      k in voters && |voters[k]| >= required
    }

    /** The votes for the issuer paid, if there are enough. */
    function Support(x: seq<nat>): Option<nat>
      requires InRange(x)
    {
      if Supported(Paid(x)) then Some(|voters[Paid(x)]|) else None
    }

    /** A set of one size to prefer over another, or as good. */
    predicate Prefers(x: seq<nat>, y: seq<nat>)
      requires InRange(x) && InRange(y)
    {
      Support(x).Some? && (Support(y).Some? ==>
        Support(y).value < Support(x).value || (Support(y).value == Support(x).value && LexLeq(x, y)))
    }

    ghost predicate AllInRange(visited: seq<seq<nat>>) {
      forall i :: 0 <= i < |visited| ==> InRange(visited[i])
    }

    /** The best of the sets visited, if any is supported. */
    ghost predicate IsBest(visited: seq<seq<nat>>, best: Option<(nat, seq<nat>)>) {
      && AllInRange(visited)
      && match best
         case None => forall i :: 0 <= i < |visited| ==> Support(visited[i]).None?
         case Some((support, x)) =>
           && x in visited && InRange(x) && Support(x) == Some(support)
           && forall i :: 0 <= i < |visited| ==> Prefers(x, visited[i])
    }

    /** The set to pay: the largest, up to a close group, whose paid issuer is
        supported, then the best supported, then the nearest. */
    ghost predicate IsOptimum(x: seq<nat>) {
      && Candidate(x) && Support(x).Some?
      && forall y :: Candidate(y) && Support(y).Some? ==> |y| < |x| || (|y| == |x| && Prefers(x, y))
    }

    predicate Candidate(x: seq<nat>) {
      1 <= |x| <= CLOSE_GROUP_SIZE && IsSubset(|quotes|, |x|, x)
    }
  }

  lemma PrefersTransitive<K>(c: Ballot<K>, x: seq<nat>, y: seq<nat>, z: seq<nat>)
    requires c.InRange(x) && c.InRange(y) && c.InRange(z) && c.Prefers(x, y) && c.Prefers(y, z)
    ensures c.Prefers(x, z)
  {
    if LexLess(x, y) && LexLess(y, z) { LexTransitive(x, y, z); }
  }

  /** What a visit does with the best so far. */
  function Better<K>(c: Ballot<K>, best: Option<(nat, seq<nat>)>, x: seq<nat>): Option<(nat, seq<nat>)>
    requires c.InRange(x)
  {
    match c.Support(x)
    case None => best
    case Some(support) =>
      if best.Some? && (best.value.0 > support || (best.value.0 == support && LexLeq(best.value.1, x))) then best
      else Some((support, x))
  }

  lemma VisitKeepsBest<K>(c: Ballot<K>, visited: seq<seq<nat>>, best: Option<(nat, seq<nat>)>, x: seq<nat>)
    requires c.InRange(x) && c.IsBest(visited, best)
    ensures c.IsBest(visited + [x], Better(c, best, x))
  {
    var all := visited + [x];
    var next := Better(c, best, x);
    if best.Some? && next != best {
      LexTotal(x, best.value.1);
      assert c.Prefers(x, best.value.1);
      forall i | 0 <= i < |visited|
        ensures c.Prefers(x, visited[i])
      {
        PrefersTransitive(c, x, best.value.1, visited[i]);
      }
    }
    assert all[|visited|] == x;
  }

  lemma SubsetVisited<K>(c: Ballot<K>, start: nat, x: seq<nat>)
    requires x != [] && IsSubset(|c.quotes|, |x|, x)
    ensures c.InRange(x) && Subsets(|c.quotes|, |x|, start, x) == [x]
  {
  }

  /** Taking the next position, then all that leave it out. */
  lemma SubsetsStep(n: nat, k: nat, index: nat, current: seq<nat>, visited: seq<seq<nat>>)
    requires |current| < k && index + (k - |current|) <= n && IsSubset(n, |current|, current)
    requires forall i :: 0 <= i < |current| ==> current[i] < index
    ensures IsSubset(n, |current| + 1, current + [index])
    ensures visited + Subsets(n, k, index, current)
         == (visited + Subsets(n, k, index + 1, current + [index])) + Subsets(n, k, index + 1, current)
  {
  }

  lemma SubsetsEnd(n: nat, k: nat, index: nat, current: seq<nat>, visited: seq<seq<nat>>)
    requires |current| < k && index + (k - |current|) > n
    ensures visited + Subsets(n, k, index, current) == visited
  {
  }

  class Search<K(==)> {
    const ballot: Ballot<K>
    var best: Option<(nat, seq<nat>)>
    ghost var visited: seq<seq<nat>>

    constructor (ballot: Ballot<K>)
      ensures this.ballot == ballot && best == None && visited == [] && ballot.IsBest([], None)
    {
      this.ballot, best, visited := ballot, None, [];
    }

    method Visit(indices: seq<nat>)
      requires ballot.InRange(indices) && ballot.IsBest(visited, best)
      modifies this
      ensures visited == old(visited) + [indices] && ballot.IsBest(visited, best)
    {
      VisitKeepsBest(ballot, visited, best, indices);
      visited := visited + [indices];
      var median := MedianPayment.MedianIndex(ballot.Prices(indices));
      var issuer := ballot.quotes[indices[median]].issuer;
      if issuer !in ballot.voters { return; }
      var support := |ballot.voters[issuer]|;
      if support < ballot.required { return; }
      match best {
        case Some((bestSupport, previous)) =>
          if bestSupport > support || (bestSupport == support && LexLeq(previous, indices)) { return; }
        case None =>
      }
      best := Some((support, indices));
    }

    /** Visit every way to fill `current` from `filled` on with ascending positions
        from `start` on. */
    method VisitSubsets(start: nat, current: array<nat>, filled: nat)
      requires filled <= current.Length && current.Length > 0 && ballot.IsBest(visited, best)
      requires IsSubset(|ballot.quotes|, filled, current[..filled])
      requires forall i :: 0 <= i < filled ==> current[i] < start
      requires start + (current.Length - filled) <= |ballot.quotes|
      modifies this, current
      ensures current[..filled] == old(current[..filled]) && ballot.IsBest(visited, best)
      ensures visited == old(visited) + Subsets(|ballot.quotes|, current.Length, start, old(current[..filled]))
      decreases current.Length - filled
    {
      hide IsSubset, Subsets;
      if filled == current.Length {
        assert current[..filled] == current[..];
        SubsetVisited(ballot, start, current[..]);
        Visit(current[..]);
        return;
      }
      var n := |ballot.quotes|;
      var lastStart := n - (current.Length - filled);
      ghost var prefix := current[..filled];
      for index := start to lastStart + 1
        invariant current[..filled] == prefix && ballot.IsBest(visited, best)
        invariant forall i :: 0 <= i < filled ==> current[i] < start
        invariant old(visited) + Subsets(n, current.Length, start, prefix)
                  == visited + Subsets(n, current.Length, index, prefix)
      {
        current[filled] := index;
        assert current[..filled + 1] == prefix + [index];
        SubsetsStep(n, current.Length, index, prefix, visited);
        VisitSubsets(index + 1, current, filled + 1);
        assert current[..filled] == current[..filled + 1][..filled];
      }
      SubsetsEnd(n, current.Length, lastStart + 1, prefix, visited);
    }
  }

  // Selection

  function Distances<K>(quotes: seq<Quote<K>>, dist: K -> nat): (d: seq<nat>)
    ensures |d| == |quotes| && forall i :: 0 <= i < |d| ==> d[i] == dist(quotes[i].issuer)
  {
    seq<nat>(|quotes|, i requires 0 <= i < |quotes| => dist(quotes[i].issuer))
  }

  /** The quotes' positions in XOR order, ties in input order. */
  function XorOrder<K>(quotes: seq<Quote<K>>, dist: K -> nat): (order: seq<nat>)
    ensures MedianPayment.IsRanking(Distances(quotes, dist), order)
    ensures |order| == |quotes| && forall i :: 0 <= i < |order| ==> order[i] < |quotes|
  {
    MedianPayment.RankIsRanking(Distances(quotes, dist));
    MedianPayment.Rank(Distances(quotes, dist))
  }

  /** The elements of `s` at the given positions. */
  function Pick<T>(s: seq<T>, at: seq<nat>): (r: seq<T>)
    requires forall i :: 0 <= i < |at| ==> at[i] < |s|
    ensures |r| == |at| && forall i :: 0 <= i < |r| ==> r[i] == s[at[i]]
  {
    seq(|at|, i requires 0 <= i < |at| => s[at[i]])
  }

  /** No subset of `k` or more, up to a close group, has a supported issuer to pay. */
  ghost predicate NoneFrom<K>(c: Ballot<K>, k: nat) {
    forall y :: c.Candidate(y) && |y| >= k ==> c.InRange(y) && c.Support(y).None?
  }

  /** The sets visited are all those of one size, so the best of them is best. */
  lemma BestOfSize<K>(c: Ballot<K>, k: nat, best: Option<(nat, seq<nat>)>)
    requires 1 <= k <= CLOSE_GROUP_SIZE && k <= |c.quotes|
    requires c.IsBest(Subsets(|c.quotes|, k, 0, []), best) && NoneFrom(c, k + 1)
    ensures best.None? ==> NoneFrom(c, k)
    ensures best.Some? ==> c.IsOptimum(best.value.1)
  {
    EverySubsetOnce(|c.quotes|, k);
    var s := Subsets(|c.quotes|, k, 0, []);
    forall y | c.Candidate(y) && |y| == k
      ensures y in s && c.InRange(y)
      ensures best.None? ==> c.Support(y).None?
      ensures best.Some? ==> c.Prefers(best.value.1, y)
    {
      assert IsSubset(|c.quotes|, k, y);
      var i :| 0 <= i < |s| && s[i] == y;
    }
  }

  /** A single quote whose issuer is supported is a set to pay; and the median of
      any set to pay is such a quote. */
  lemma NoneFromOne<K>(c: Ballot<K>)
    ensures NoneFrom(c, 1) <==> forall i :: 0 <= i < |c.quotes| ==> !c.Supported(c.quotes[i].issuer)
  {
    if NoneFrom(c, 1) {
      forall i | 0 <= i < |c.quotes|
        ensures !c.Supported(c.quotes[i].issuer)
      {
        assert c.Candidate([i]);
        assert c.Support([i]).None?;
        assert MedianPayment.MedianIndex(c.Prices([i])) == 0;
      }
    }
    if forall i :: 0 <= i < |c.quotes| ==> !c.Supported(c.quotes[i].issuer) {
      forall y | c.Candidate(y)
        ensures c.InRange(y) && c.Support(y).None?
      {
        assert c.InRange(y);
        assert !c.Supported(c.quotes[y[MedianPayment.MedianIndex(c.Prices(y))]].issuer);
      }
    }
  }

  /** The best set of one size. */
  method BestSet<K(==)>(c: Ballot<K>, count: nat) returns (best: Option<(nat, seq<nat>)>)
    requires 1 <= count <= |c.quotes|
    ensures c.IsBest(Subsets(|c.quotes|, count, 0, []), best)
  {
    var search := new Search(c);
    var current := new nat[count];
    assert current[..0] == [];
    search.VisitSubsets(0, current, 0);
    assert [] + Subsets(|c.quotes|, count, 0, []) == Subsets(|c.quotes|, count, 0, []);
    best := search.best;
  }

  function BallotOf<K>(quotes: seq<Quote<K>>, dist: K -> nat, voters: map<K, set<K>>, required: nat): (c: Ballot<K>)
    ensures |c.quotes| == |quotes|
  {
    Ballot(Pick(quotes, XorOrder(quotes, dist)), voters, required)
  }

  lemma NoneSupported<K>(quotes: seq<Quote<K>>, dist: K -> nat, voters: map<K, set<K>>, required: nat)
    ensures var c := BallotOf(quotes, dist, voters, required);
      NoneFrom(c, 1) <==> forall i :: 0 <= i < |quotes| ==> !c.Supported(quotes[i].issuer)
  {
    var c := BallotOf(quotes, dist, voters, required);
    var order := XorOrder(quotes, dist);
    NoneFromOne(c);
    hide NoneFrom;
    if forall i :: 0 <= i < |c.quotes| ==> !c.Supported(c.quotes[i].issuer) {
      forall i | 0 <= i < |quotes|
        ensures !c.Supported(quotes[i].issuer)
      {
        assert i in order;
        var k :| 0 <= k < |order| && order[k] == i;
        assert !c.Supported(c.quotes[k].issuer);
      }
    }
  }

  lemma NoneTooLarge<K>(c: Ballot<K>, k: nat)
    requires k > CLOSE_GROUP_SIZE || k > |c.quotes|
    ensures NoneFrom(c, k)
  {
    forall y | c.Candidate(y) && |y| >= k
      ensures false
    {
      RoomLeft(|c.quotes|, |y|, y, 0);
    }
  }

  /** What a selection is: the optimum, in XOR order; there is none exactly when no
      quote's issuer has enough votes. */
  ghost predicate IsSelection<K>(quotes: seq<Quote<K>>, dist: K -> nat, voters: map<K, set<K>>, required: nat,
                                 selected: Option<seq<nat>>) {
    var c := BallotOf(quotes, dist, voters, required);
    && (selected.None? <==> forall i :: 0 <= i < |quotes| ==> !c.Supported(quotes[i].issuer))
    && (selected.Some? ==>
          exists x :: c.IsOptimum(x) && c.InRange(x) && selected.value == Pick(XorOrder(quotes, dist), x))
  }

  method SelectWitnessedQuotes<K(==)>(quotes: seq<Quote<K>>, dist: K -> nat, voters: map<K, set<K>>, required: nat)
    returns (selected: Option<seq<nat>>)
    ensures IsSelection(quotes, dist, voters, required, selected)
  {
    hide NoneFrom, BallotOf, XorOrder, IsSelection;
    var order := XorOrder(quotes, dist);
    var c := BallotOf(quotes, dist, voters, required);
    var maxCount := if CLOSE_GROUP_SIZE < |quotes| then CLOSE_GROUP_SIZE else |quotes|;
    NoneTooLarge(c, maxCount + 1);
    for count := maxCount + 1 downto SINGLE_NODE_MIN_QUOTE_COUNT
      invariant NoneFrom(c, count)
    {
      var best := BestSet(c, count);
      BestOfSize(c, count, best);
      if best.Some? {
        OptimumInRange(c, best.value.1);
        OptimumSelected(quotes, dist, voters, required, best.value.1);
        return Some(Pick(order, best.value.1));
      }
    }
    selected := None;
    NothingSelected(quotes, dist, voters, required);
  }

  lemma OptimumSelected<K>(quotes: seq<Quote<K>>, dist: K -> nat, voters: map<K, set<K>>, required: nat, x: seq<nat>)
    requires var c := BallotOf(quotes, dist, voters, required); c.IsOptimum(x) && c.InRange(x) && !NoneFrom(c, 1)
    ensures (forall i :: 0 <= i < |x| ==> x[i] < |quotes|)
      && IsSelection(quotes, dist, voters, required, Some(Pick(XorOrder(quotes, dist), x)))
  {
    hide BallotOf, XorOrder, NoneFrom;
    NoneSupported(quotes, dist, voters, required);
  }

  lemma NothingSelected<K>(quotes: seq<Quote<K>>, dist: K -> nat, voters: map<K, set<K>>, required: nat)
    requires NoneFrom(BallotOf(quotes, dist, voters, required), 1)
    ensures IsSelection(quotes, dist, voters, required, None)
  {
    hide BallotOf, XorOrder, NoneFrom;
    NoneSupported(quotes, dist, voters, required);
  }

  lemma OptimumInRange<K>(c: Ballot<K>, x: seq<nat>)
    requires c.IsOptimum(x)
    ensures c.InRange(x) && c.Supported(c.Paid(x)) && !NoneFrom(c, 1)
  {
    assert c.Candidate(x) && c.Support(x).Some?;
  }

  /** There is at most one optimum. */
  lemma OptimumUnique<K>(c: Ballot<K>, x: seq<nat>, y: seq<nat>)
    requires c.IsOptimum(x) && c.IsOptimum(y)
    ensures x == y
  {
    assert c.Candidate(x) && c.Support(x).Some? && c.Candidate(y) && c.Support(y).Some?;
    assert c.Prefers(x, y) && c.Prefers(y, x);
    if LexLess(x, y) && LexLess(y, x) {
      LexTransitive(x, y, x);
      LexIrreflexive(x);
    }
  }

  /** No two quotes are at the same distance, as for distinct issuers under an
      injective metric. */
  ghost predicate DistinctDistances<K>(quotes: seq<Quote<K>>, dist: K -> nat) {
    forall i, j :: 0 <= i < j < |quotes| ==> dist(quotes[i].issuer) != dist(quotes[j].issuer)
  }

  function IssuerDistance<K>(dist: K -> nat): Quote<K> -> nat {
    (q: Quote<K>) => dist(q.issuer)
  }

  lemma OrderedQuotes<K>(quotes: seq<Quote<K>>, dist: K -> nat)
    requires DistinctDistances(quotes, dist)
    ensures Strict(Pick(quotes, XorOrder(quotes, dist)), IssuerDistance(dist))
    ensures forall q :: q in Pick(quotes, XorOrder(quotes, dist)) <==> q in quotes
  {
    var order := XorOrder(quotes, dist);
    var picked := Pick(quotes, order);
    forall i, j | 0 <= i < j < |picked|
      ensures IssuerDistance(dist)(picked[i]) < IssuerDistance(dist)(picked[j])
    {
      assert MedianPayment.Before(Distances(quotes, dist), order[i], order[j]);
      assert order[i] != order[j];
    }
    forall q | q in quotes
      ensures q in picked
    {
      var i :| 0 <= i < |quotes| && quotes[i] == q;
      assert i in order;
      var k :| 0 <= k < |order| && order[k] == i;
      assert picked[k] == q;
    }
  }

  lemma PermutedDistances<K>(a: seq<Quote<K>>, b: seq<Quote<K>>, dist: K -> nat)
    requires multiset(a) == multiset(b) && DistinctDistances(a, dist)
    ensures DistinctDistances(b, dist)
  {
    assert NoDup(a);
    PermutationNoDup(a, b);
    SameElements(a, b);
    forall i, j | 0 <= i < j < |b|
      ensures dist(b[i].issuer) != dist(b[j].issuer)
    {
      assert b[i] in a && b[j] in a;
    }
  }

  /** The search sees the same ballot whatever order the quotes come in. */
  lemma BallotIgnoresOrder<K>(a: seq<Quote<K>>, b: seq<Quote<K>>, dist: K -> nat, voters: map<K, set<K>>, required: nat)
    requires multiset(a) == multiset(b) && DistinctDistances(a, dist)
    ensures BallotOf(a, dist, voters, required) == BallotOf(b, dist, voters, required)
  {
    SameElements(a, b);
    PermutedDistances(a, b, dist);
    OrderedQuotes(a, dist);
    OrderedQuotes(b, dist);
    StrictUnique(Pick(a, XorOrder(a, dist)), Pick(b, XorOrder(b, dist)), IssuerDistance(dist));
  }

  /** The quotes selected, and the order they are returned in, do not depend on the
      order in which they came in. */
  lemma SelectionIgnoresOrder<K>(a: seq<Quote<K>>, b: seq<Quote<K>>, dist: K -> nat, voters: map<K, set<K>>,
                                 required: nat, sa: Option<seq<nat>>, sb: Option<seq<nat>>)
    requires multiset(a) == multiset(b) && DistinctDistances(a, dist)
    requires IsSelection(a, dist, voters, required, sa) && IsSelection(b, dist, voters, required, sb)
    ensures sa.Some? <==> sb.Some?
    ensures sa.Some? ==>
      && (forall i :: 0 <= i < |sa.value| ==> sa.value[i] < |a|)
      && (forall i :: 0 <= i < |sb.value| ==> sb.value[i] < |b|)
      && Pick(a, sa.value) == Pick(b, sb.value)
  {
    hide BallotOf, XorOrder, IsSelection;
    var c := BallotOf(a, dist, voters, required);
    BallotIgnoresOrder(a, b, dist, voters, required);
    SameElements(a, b);
    NoneSelected(a, dist, voters, required, sa);
    NoneSelected(b, dist, voters, required, sb);
    if sa.None? { SameSupported(b, a, c); }
    if sb.None? { SameSupported(a, b, c); }
    if sa.Some? && sb.Some? {
      var x := SelectedQuotes(a, dist, voters, required, sa.value);
      var y := SelectedQuotes(b, dist, voters, required, sb.value);
      OptimumUnique(c, x, y);
    }
  }

  lemma NoneSelected<K>(quotes: seq<Quote<K>>, dist: K -> nat, voters: map<K, set<K>>, required: nat,
                        selected: Option<seq<nat>>)
    requires IsSelection(quotes, dist, voters, required, selected)
    ensures var c := BallotOf(quotes, dist, voters, required);
      selected.None? <==> forall i :: 0 <= i < |quotes| ==> !c.Supported(quotes[i].issuer)
  {
    hide BallotOf, XorOrder;
  }

  /** The quotes selected are those at the optimum's places in XOR order. */
  lemma SelectedQuotes<K>(quotes: seq<Quote<K>>, dist: K -> nat, voters: map<K, set<K>>, required: nat,
                          selected: seq<nat>)
    returns (x: seq<nat>)
    requires IsSelection(quotes, dist, voters, required, Some(selected))
    ensures var c := BallotOf(quotes, dist, voters, required);
      && c.IsOptimum(x) && (forall i :: 0 <= i < |x| ==> x[i] < |c.quotes|)
      && (forall i :: 0 <= i < |selected| ==> selected[i] < |quotes|)
      && Pick(quotes, selected) == Pick(c.quotes, x)
  {
    hide XorOrder, Pick;
    var c := BallotOf(quotes, dist, voters, required);
    x :| c.IsOptimum(x) && c.InRange(x) && selected == Pick(XorOrder(quotes, dist), x);
    PickTwice(quotes, XorOrder(quotes, dist), x);
  }

  lemma PickTwice<T>(s: seq<T>, order: seq<nat>, x: seq<nat>)
    requires (forall i :: 0 <= i < |order| ==> order[i] < |s|) && forall i :: 0 <= i < |x| ==> x[i] < |order|
    ensures forall i :: 0 <= i < |x| ==> Pick(order, x)[i] < |s|
    ensures Pick(s, Pick(order, x)) == Pick(Pick(s, order), x)
  {
  }

  lemma SameSupported<K>(a: seq<Quote<K>>, b: seq<Quote<K>>, c: Ballot<K>)
    requires forall q :: q in a ==> q in b
    requires forall i :: 0 <= i < |b| ==> !c.Supported(b[i].issuer)
    ensures forall i :: 0 <= i < |a| ==> !c.Supported(a[i].issuer)
  {
    forall i | 0 <= i < |a|
      ensures !c.Supported(a[i].issuer)
    {
      assert a[i] in b;
    }
  }

  function SelectedPrices<K>(quotes: seq<Quote<K>>, selected: seq<nat>): (p: seq<nat>)
    requires forall i :: 0 <= i < |selected| ==> selected[i] < |quotes|
    ensures |p| == |selected| && forall i :: 0 <= i < |p| ==> p[i] == quotes[selected[i]].price
  {
    seq(|selected|, i requires 0 <= i < |selected| => quotes[selected[i]].price)
  }

  /** The payment plan made from the selected quotes, in their returned order, pays
      the very issuer whose votes the search counted. */
  lemma PaidIssuerIsTheOneChecked<K>(quotes: seq<Quote<K>>, dist: K -> nat, voters: map<K, set<K>>, required: nat,
                                     x: seq<nat>, selected: seq<nat>, max: nat)
    requires var c := BallotOf(quotes, dist, voters, required);
      c.Candidate(x) && c.InRange(x) && c.Supported(c.Paid(x)) && selected == Pick(XorOrder(quotes, dist), x)
    ensures var c := BallotOf(quotes, dist, voters, required);
      var plan := MedianPayment.FromPrices(SelectedPrices(quotes, selected), max);
      && (plan.Err? ==> plan.error.PriceOverflow?)
      && (plan.Ok? ==>
            && plan.value.paidPosition < |plan.value.quotes|
            && plan.value.quotes[plan.value.paidPosition].quoteIndex < |selected|
            && quotes[selected[plan.value.quotes[plan.value.paidPosition].quoteIndex]].issuer == c.Paid(x))
  {
    var c := BallotOf(quotes, dist, voters, required);
    var prices := SelectedPrices(quotes, selected);
    assert prices == c.Prices(x);
    if MedianPayment.FromPrices(prices, max).Ok? {
      MedianPayment.PlanPaysMedianOnly(prices, max);
    }
  }

  // The vote table

  datatype View<K> = View(responder: K, closest: seq<K>)

  /** Responder `r` has a view, among the first `n`, that lists `p`; in view `n`
      among its first `m` peers. */
  ghost predicate Votes<K(!new)>(views: seq<View<K>>, n: nat, m: nat, r: K, p: K)
    requires n <= |views| && (m > 0 ==> n < |views| && m <= |views[n].closest|)
  {
    || (exists i :: 0 <= i < n && views[i].responder == r && p in views[i].closest)
    || (m > 0 && views[n].responder == r && p in views[n].closest[..m])
  }

  /** The table holds exactly the votes cast. */
  ghost predicate Tallied<K(!new)>(views: seq<View<K>>, n: nat, m: nat, voters: map<K, set<K>>)
    requires n <= |views| && (m > 0 ==> n < |views| && m <= |views[n].closest|)
  {
    && (forall r, p :: p in voters && r in voters[p] <==> Votes(views, n, m, r, p))
    && (forall p :: p in voters ==> voters[p] != {})
  }

  method WitnessVotes<K(==, !new)>(views: seq<View<K>>) returns (voters: map<K, set<K>>)
    ensures Tallied(views, |views|, 0, voters)
  {
    voters := map[];
    for n := 0 to |views|
      invariant Tallied(views, n, 0, voters)
    {
      for m := 0 to |views[n].closest|
        invariant Tallied(views, n, m, voters)
      {
        var peer := views[n].closest[m];
        ghost var before := voters;
        voters := voters[peer := (if peer in voters then voters[peer] else {}) + {views[n].responder}];
        VoteAdded(views, n, m, before, voters);
      }
      ViewDone(views, n, voters);
    }
  }

  lemma VoteAdded<K(!new)>(views: seq<View<K>>, n: nat, m: nat, before: map<K, set<K>>, after: map<K, set<K>>)
    requires n < |views| && m < |views[n].closest| && Tallied(views, n, m, before)
    requires var peer := views[n].closest[m];
      after == before[peer := (if peer in before then before[peer] else {}) + {views[n].responder}]
    ensures Tallied(views, n, m + 1, after)
  {
    var closest, m1 := views[n].closest, m + 1;
    assert closest[..m + 1] == closest[..m] + [closest[m]];
    assert views[n].responder in after[closest[m]];
    forall r, p
      ensures p in after && r in after[p] <==> Votes(views, n, m1, r, p)
    {
      assert p in before && r in before[p] <==> Votes(views, n, m, r, p);
    }
  }

  lemma ViewDone<K(!new)>(views: seq<View<K>>, n: nat, voters: map<K, set<K>>)
    requires n < |views| && Tallied(views, n, |views[n].closest|, voters)
    ensures Tallied(views, n + 1, 0, voters)
  {
    var m, n1 := |views[n].closest|, n + 1;
    assert views[n].closest[..m] == views[n].closest;
    forall r, p
      ensures p in voters && r in voters[p] <==> Votes(views, n1, 0, r, p)
    {
      assert p in voters && r in voters[p] <==> Votes(views, n, m, r, p);
      if i :| 0 <= i < n && views[i].responder == r && p in views[i].closest {
        assert 0 <= i < n + 1;
      }
    }
  }

  /** The issuer paid is listed in the views of at least `required` distinct
      responders. */
  lemma PaidIssuerIsWitnessed<K(!new)>(views: seq<View<K>>, voters: map<K, set<K>>, quotes: seq<Quote<K>>,
                                       dist: K -> nat, required: nat, x: seq<nat>) returns (witnesses: set<K>)
    requires Tallied(views, |views|, 0, voters)
    requires var c := BallotOf(quotes, dist, voters, required); c.InRange(x) && c.Supported(c.Paid(x))
    ensures |witnesses| >= required
    ensures forall r :: r in witnesses ==>
              exists i :: 0 <= i < |views| && views[i].responder == r
                          && BallotOf(quotes, dist, voters, required).Paid(x) in views[i].closest
  {
    var c := BallotOf(quotes, dist, voters, required);
    witnesses := voters[c.Paid(x)];
    forall r | r in witnesses
      ensures exists i :: 0 <= i < |views| && views[i].responder == r && c.Paid(x) in views[i].closest
    {
      assert Votes(views, |views|, 0, r, c.Paid(x));
    }
  }
}
