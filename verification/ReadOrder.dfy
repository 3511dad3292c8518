/** Which peers a read asks, and in what order: the pure and in-place parts of
    `client_engine/read.rs`. A metric `dist` stands for the XOR distance to the
    read's target; `XorMetric.DistanceInjective` makes it injective. */
module ReadOrder {
  import opened Prelude
  import opened Sorting
  import opened Shuffle
  import XorMetric

  type Peer = XorMetric.Id
  type Metric = Peer -> nat

  const MAX_GET_FALLBACK_PEERS: nat := 20

  ghost predicate Injective(dist: Metric) {
    forall a: Peer, b: Peer :: dist(a) == dist(b) ==> a == b
  }

  /** The XOR distance to any target is such a metric. */
  lemma XorIsInjective(target: Peer)
    ensures Injective(p => XorMetric.Distance(p, target))
  {
    var dist: Metric := p => XorMetric.Distance(p, target);
    forall a: Peer, b: Peer | dist(a) == dist(b)
      ensures a == b
    {
      XorMetric.DistanceInjective(a, b, target);
    }
  }

  function Elems(s: seq<Peer>): set<Peer> {
    set p | p in s
  }

  /** The peers of `s` nearer than `p`. */
  function NearerThan(s: set<Peer>, p: Peer, dist: Metric): set<Peer> {
    set q | q in s && dist(q) < dist(p)
  }

  /** Fewer than a close group of `known` peers are nearer the target. */
  predicate MayHold(known: set<Peer>, candidate: Peer, dist: Metric) {
    |NearerThan(known, candidate, dist)| < CLOSE_GROUP_SIZE
  }

  /** Knowing more can only rule a candidate out. */
  lemma MayHoldAntitone(known: set<Peer>, more: set<Peer>, candidate: Peer, dist: Metric)
    requires known <= more && MayHold(more, candidate, dist)
    ensures MayHold(known, candidate, dist)
  {
    SubsetCardinality(NearerThan(known, candidate, dist), NearerThan(more, candidate, dist));
  }

  // Adjacent deduplication, as `dedup_by_key`.

  function DedupAdjacent(s: seq<Peer>): (r: seq<Peer>)
    ensures s != [] ==> r != [] && r[0] == s[0]
    ensures forall p :: p in r <==> p in s
  {
    if |s| < 2 then s
    else
      assert s == [s[0]] + s[1..];
      if s[0] == s[1] then DedupAdjacent(s[1..])
      else [s[0]] + DedupAdjacent(s[1..])
  }

  /** Deduplicating neighbours removes every duplicate of a sorted sequence,
      because equal distances mean equal peers. */
  lemma {:induction false} DedupRanks(s: seq<Peer>, dist: Metric)
    requires Injective(dist) && Ascending(s, dist)
    ensures Strict(DedupAdjacent(s), dist)
  {
    if |s| >= 2 {
      DedupRanks(s[1..], dist);
      var rest := DedupAdjacent(s[1..]);
      if s[0] != s[1] {
        assert rest[0] == s[1] && dist(s[0]) < dist(s[1]);
        assert forall k :: 0 <= k < |rest| ==> dist(s[1]) <= dist(rest[k]);
      }
    }
  }

  /** The distinct hints, nearest first. */
  function Rank(hints: seq<Peer>, dist: Metric): seq<Peer> {
    DedupAdjacent(Sort(hints, dist))
  }

  lemma RankContract(hints: seq<Peer>, dist: Metric)
    requires Injective(dist)
    ensures Strict(Rank(hints, dist), dist)
    ensures forall p :: p in Rank(hints, dist) <==> p in hints
  {
    SortContract(hints, dist);
    DedupRanks(Sort(hints, dist), dist);
  }

  /** In a strictly ranked sequence a peer's position counts the nearer ones. */
  lemma {:induction false} RankPosition(s: seq<Peer>, i: nat, dist: Metric)
    requires Strict(s, dist) && i < |s|
    ensures |NearerThan(Elems(s), s[i], dist)| == i
  {
    var before := s[..i];
    assert NearerThan(Elems(s), s[i], dist) == (set p | p in before);
    DistinctCardinality(before);
  }

  // Hints to read before discovery completes

  function Filter(s: seq<Peer>, keep: set<Peer>): (r: seq<Peer>)
    ensures forall p :: p in r <==> p in s && p in keep
  {
    if s == [] then []
    else
      assert s == [s[0]] + s[1..];
      (if s[0] in keep then [s[0]] else []) + Filter(s[1..], keep)
  }

  lemma {:induction false} FilterStrict(s: seq<Peer>, keep: set<Peer>, dist: Metric)
    requires Strict(s, dist)
    ensures Strict(Filter(s, keep), dist)
  {
    if s != [] {
      FilterStrict(s[1..], keep, dist);
      var rest := Filter(s[1..], keep);
      assert forall j :: 0 <= j < |rest| ==> rest[j] in s[1..];
    }
  }

  /** The hints an early GET may go to: not yet attempted, and within the
      allowance or possibly holding the record. */
  function Readable(hints: seq<Peer>, attempted: set<Peer>, withinAllowance: bool, dist: Metric): set<Peer> {
    set p | p in hints && p !in attempted && (withinAllowance || MayHold(attempted, p, dist))
  }

  function NextEarly(hints: seq<Peer>, attempted: set<Peer>, withinAllowance: bool,
                     choice: nat, dist: Metric): Option<Peer>
  {
    var ranked := Rank(hints, dist);
    var readable := Readable(hints, attempted, withinAllowance, dist);
    var closeGroup := Filter(ranked[..Min(CLOSE_GROUP_SIZE, |ranked|)], readable);
    if closeGroup != [] then Some(closeGroup[Min(choice, |closeGroup| - 1)])
    else
      var rest := Filter(ranked, readable);
      if rest == [] then None else Some(rest[0])
  }

  /** The hints with fewer than a close group of nearer hints. */
  function HintCloseGroup(hints: seq<Peer>, dist: Metric): set<Peer> {
    set p | p in hints && MayHold(Elems(hints), p, dist)
  }

  lemma RankedPrefixIsCloseGroup(hints: seq<Peer>, dist: Metric)
    requires Injective(dist)
    ensures var ranked := Rank(hints, dist);
            Elems(ranked[..Min(CLOSE_GROUP_SIZE, |ranked|)]) == HintCloseGroup(hints, dist)
  {
    var ranked := Rank(hints, dist);
    RankContract(hints, dist);
    assert Elems(ranked) == Elems(hints);
    var k := Min(CLOSE_GROUP_SIZE, |ranked|);
    forall p | p in hints
      ensures p in ranked[..k] <==> MayHold(Elems(hints), p, dist)
    {
      var i :| 0 <= i < |ranked| && ranked[i] == p;
      RankPosition(ranked, i, dist);
      if p in ranked[..k] {
        var j :| 0 <= j < k && ranked[..k][j] == p;
        assert j == i;
      }
    }
    forall p | p in ranked[..k]
      ensures p in hints
    {
      assert p in ranked;
    }
  }

  /** The hint chosen is readable; it comes from the close group of the hints
      while that has a readable one, and is the nearest readable one otherwise. */
  lemma NextEarlyContract(hints: seq<Peer>, attempted: set<Peer>, withinAllowance: bool,
                          choice: nat, dist: Metric)
    requires Injective(dist)
    ensures var readable := Readable(hints, attempted, withinAllowance, dist);
            var group := readable * HintCloseGroup(hints, dist);
            match NextEarly(hints, attempted, withinAllowance, choice, dist)
            case None => readable == {}
            case Some(p) =>
              && p in readable
              && (group != {} ==> p in group)
              && (group == {} ==> forall q :: q in readable ==> dist(p) <= dist(q))
  {
    var ranked := Rank(hints, dist);
    var readable := Readable(hints, attempted, withinAllowance, dist);
    var prefix := ranked[..Min(CLOSE_GROUP_SIZE, |ranked|)];
    RankContract(hints, dist);
    RankedPrefixIsCloseGroup(hints, dist);
    var closeGroup, rest := Filter(prefix, readable), Filter(ranked, readable);
    assert forall p :: p in prefix <==> p in Elems(prefix);
    FilterStrict(ranked, readable, dist);
    if closeGroup != [] {
      assert closeGroup[Min(choice, |closeGroup| - 1)] in closeGroup;
    } else if rest != [] {
      assert rest[0] in rest;
    } else {
      assert forall p :: p in readable ==> p in rest;
    }
  }

  /** Every readable close-group hint is some choice's answer. */
  lemma NextEarlyReachesAll(hints: seq<Peer>, attempted: set<Peer>, withinAllowance: bool, p: Peer, dist: Metric)
    requires Injective(dist)
    requires p in Readable(hints, attempted, withinAllowance, dist) * HintCloseGroup(hints, dist)
    ensures exists choice: nat :: NextEarly(hints, attempted, withinAllowance, choice, dist) == Some(p)
  {
    var ranked := Rank(hints, dist);
    var prefix := ranked[..Min(CLOSE_GROUP_SIZE, |ranked|)];
    RankedPrefixIsCloseGroup(hints, dist);
    assert p in Elems(prefix);
    var closeGroup := Filter(prefix, Readable(hints, attempted, withinAllowance, dist));
    assert p in closeGroup;
    var choice :| 0 <= choice < |closeGroup| && closeGroup[choice] == p;
    assert NextEarly(hints, attempted, withinAllowance, choice, dist) == Some(p);
  }

  // Targets once discovery has completed

  /** Keep the peers not seen before, first occurrences only. */
  method RetainUnseen(s: seq<Peer>, seen: set<Peer>, ghost dist: Metric) returns (kept: seq<Peer>, seen': set<Peer>)
    ensures forall p :: p in kept <==> p in s && p !in seen
    ensures seen' == seen + Elems(s)
    ensures NoDup(kept)
    ensures Ascending(s, dist) ==> Ascending(kept, dist)
  {
    kept, seen' := [], seen;
    for i := 0 to |s|
      invariant forall p :: p in kept <==> p in s[..i] && p !in seen
      invariant seen' == seen + Elems(s[..i])
      invariant NoDup(kept)
      invariant Ascending(s, dist) ==> Ascending(kept, dist)
      invariant Ascending(s, dist) && i < |s| ==> forall p :: p in kept ==> dist(p) <= dist(s[i])
    {
      assert s[..i + 1] == s[..i] + [s[i]];
      if s[i] !in seen' {
        kept := kept + [s[i]];
      }
      seen' := seen' + {s[i]};
    }
    assert s[..|s|] == s;
  }

  /** The known peers discovery did not return. */
  function Others(closest: seq<Peer>, known: seq<Peer>): set<Peer> {
    Elems(known) - Elems(closest)
  }

  function Fallback(closest: seq<Peer>, known: seq<Peer>, dist: Metric): seq<Peer> {
    var others := Filter(Rank(known, dist), Others(closest, known));
    others[..Min(MAX_GET_FALLBACK_PEERS, |others|)]
  }

  function Targets(closest: seq<Peer>, known: seq<Peer>, choices: nat -> nat, dist: Metric): seq<Peer> {
    var primary := Rank(closest, dist);
    Spread(primary, Min(|primary|, CLOSE_GROUP_SIZE), choices, 0) + Fallback(closest, known, dist)
  }

  lemma StrictFromNoDup(s: seq<Peer>, dist: Metric)
    requires Injective(dist) && NoDup(s) && Ascending(s, dist)
    ensures Strict(s, dist)
  {
    forall i, j | 0 <= i < j < |s|
      ensures dist(s[i]) < dist(s[j])
    {
      assert s[i] != s[j];
    }
  }

  lemma SortedDistinctIsRank(hints: seq<Peer>, kept: seq<Peer>, dist: Metric)
    requires Injective(dist) && NoDup(kept) && Ascending(kept, dist)
    requires forall p :: p in kept <==> p in hints
    ensures kept == Rank(hints, dist)
  {
    StrictFromNoDup(kept, dist);
    RankContract(hints, dist);
    StrictUnique(kept, Rank(hints, dist), dist);
  }

  lemma SortedUnseenIsFiltered(closest: seq<Peer>, known: seq<Peer>, kept: seq<Peer>, dist: Metric)
    requires Injective(dist) && NoDup(kept) && Ascending(kept, dist)
    requires forall p :: p in kept <==> p in known && p !in closest
    ensures kept == Filter(Rank(known, dist), Others(closest, known))
  {
    StrictFromNoDup(kept, dist);
    RankContract(known, dist);
    FilterStrict(Rank(known, dist), Others(closest, known), dist);
    StrictUnique(kept, Filter(Rank(known, dist), Others(closest, known)), dist);
  }

  /** Sort, drop repeats, shuffle the close group, append the fallback peers. */
  method ReadTargets(closest: seq<Peer>, known: seq<Peer>, choices: nat -> nat, dist: Metric)
    returns (targets: seq<Peer>)
    requires Injective(dist)
    ensures targets == Targets(closest, known, choices, dist)
  {
    SortContract(closest, dist);
    SortContract(known, dist);
    var primary, seen := RetainUnseen(Sort(closest, dist), {}, dist);
    SortedDistinctIsRank(closest, primary, dist);
    var peers := new Peer[|primary|](i requires 0 <= i < |primary| => primary[i]);
    assert peers[..] == primary;
    SpreadInPlace(peers, Min(|primary|, CLOSE_GROUP_SIZE), choices);
    var others, _ := RetainUnseen(Sort(known, dist), seen, dist);
    SortedUnseenIsFiltered(closest, known, others, dist);
    targets := peers[..] + others[..Min(MAX_GET_FALLBACK_PEERS, |others|)];
  }

  /** What a target list is, said without the steps that build it. The first
      part holds exactly the discovered peers, only their nearest seven out of
      XOR order; the rest are the nearest other known peers, at most twenty. */
  ghost predicate IsTargetList(closest: seq<Peer>, known: seq<Peer>, t: seq<Peer>, dist: Metric) {
    var n := |Elems(closest)|;
    var group := Min(n, CLOSE_GROUP_SIZE);
    && n <= |t| <= n + MAX_GET_FALLBACK_PEERS
    && NoDup(t)
    && Elems(t[..n]) == Elems(closest)
    && (forall i, j :: 0 <= i < j < n && group <= j ==> dist(t[i]) < dist(t[j]))
    && Elems(t[n..]) <= Others(closest, known)
    && Strict(t[n..], dist)
    && (forall p :: p in Others(closest, known) && p !in t[n..] ==>
          |t| == n + MAX_GET_FALLBACK_PEERS && forall q :: q in t[n..] ==> dist(q) < dist(p))
  }

  /** The peers whose answers can prove absence: the discovered ones, and the
      nearest twenty of the other known ones. */
  function FinalSet(closest: seq<Peer>, known: seq<Peer>, dist: Metric): set<Peer> {
    Elems(closest)
    + set p | p in Others(closest, known) && |NearerThan(Others(closest, known), p, dist)| < MAX_GET_FALLBACK_PEERS
  }

  lemma FallbackSet(others: set<Peer>, f: seq<Peer>, p: Peer, dist: Metric)
    requires NoDup(f) && Elems(f) <= others && |f| <= MAX_GET_FALLBACK_PEERS
    requires forall q :: q in others && q !in f ==>
               |f| == MAX_GET_FALLBACK_PEERS && forall r :: r in f ==> dist(r) < dist(q)
    requires p in others
    ensures p in f <==> |NearerThan(others, p, dist)| < MAX_GET_FALLBACK_PEERS
  {
    DistinctCardinality(f);
    var nearer := NearerThan(others, p, dist);
    if p in f {
      assert nearer <= Elems(f) - {p};
      SubsetCardinality(nearer, Elems(f) - {p});
    } else {
      assert Elems(f) <= nearer;
      SubsetCardinality(Elems(f), nearer);
    }
  }

  lemma TailNoDup(t: seq<Peer>, n: nat)
    requires NoDup(t) && n <= |t|
    ensures NoDup(t[n..]) && Elems(t) == Elems(t[..n]) + Elems(t[n..])
  {
    assert t == t[..n] + t[n..];
  }

  /** Every target list is a list of the final set. */
  lemma TargetsAreFinal(closest: seq<Peer>, known: seq<Peer>, t: seq<Peer>, dist: Metric)
    requires IsTargetList(closest, known, t, dist)
    ensures Elems(t) == FinalSet(closest, known, dist)
  {
    var n, others := |Elems(closest)|, Others(closest, known);
    var f := t[n..];
    TailNoDup(t, n);
    hide NoDup, Strict;
    forall p
      ensures p in Elems(f) <==> p in others && |NearerThan(others, p, dist)| < MAX_GET_FALLBACK_PEERS
    {
      if p in others { FallbackSet(others, f, p, dist); }
    }
  }

  lemma RankSize(closest: seq<Peer>, dist: Metric)
    requires Injective(dist)
    ensures |Rank(closest, dist)| == |Elems(closest)|
    ensures Elems(Rank(closest, dist)) == Elems(closest)
  {
    RankContract(closest, dist);
    var primary := Rank(closest, dist);
    assert (set p | p in primary) == Elems(closest);
    DistinctCardinality(primary);
  }

  /** Shuffling the nearest seven leaves every farther peer behind them. */
  lemma SpreadKeepsGroupNearest(primary: seq<Peer>, group: nat, choices: nat -> nat, dist: Metric)
    requires Strict(primary, dist) && group <= |primary|
    ensures var r := Spread(primary, group, choices, 0);
            forall i, j :: 0 <= i < j < |r| && group <= j ==> dist(r[i]) < dist(r[j])
  {
    var r := Spread(primary, group, choices, 0);
    SpreadPermutes(primary, group, choices, 0);
    SpreadFrame(primary, group, choices, 0);
    MiddleMultiset(primary, r, 0, group);
    SameElements(primary[0..group], r[0..group]);
    forall i, j | 0 <= i < j < |r| && group <= j
      ensures dist(r[i]) < dist(r[j])
    {
      if i < group {
        assert r[i] in r[0..group];
        var k :| 0 <= k < group && primary[0..group][k] == r[i];
        assert primary[k] == r[i];
      }
    }
  }

  lemma FallbackContract(closest: seq<Peer>, known: seq<Peer>, dist: Metric)
    requires Injective(dist)
    ensures var f := Fallback(closest, known, dist);
            && |f| <= MAX_GET_FALLBACK_PEERS
            && Strict(f, dist)
            && Elems(f) <= Others(closest, known)
            && (forall p :: p in Others(closest, known) && p !in f ==>
                  |f| == MAX_GET_FALLBACK_PEERS && forall q :: q in f ==> dist(q) < dist(p))
  {
    var all := Filter(Rank(known, dist), Others(closest, known));
    var f := Fallback(closest, known, dist);
    RankContract(known, dist);
    FilterStrict(Rank(known, dist), Others(closest, known), dist);
    hide Rank, Filter, Injective;
    forall p | p in Others(closest, known)
      ensures p in all
    {
      assert p in known;
    }
    assert forall p :: p in f ==> p in all;
    FrontIsNearest(all, |f|, dist);
  }

  lemma FrontIsNearest(all: seq<Peer>, n: nat, dist: Metric)
    requires Strict(all, dist) && n <= |all|
    ensures Strict(all[..n], dist)
    ensures forall p, q :: p in all && p !in all[..n] && q in all[..n] ==> dist(q) < dist(p)
    ensures n == |all| ==> all[..n] == all
  {
    forall m | 0 <= m < n
      ensures all[m] in all[..n]
    {
      assert all[..n][m] == all[m];
    }
    forall p, q | p in all && p !in all[..n] && q in all[..n]
      ensures dist(q) < dist(p)
    {
      var k :| 0 <= k < |all| && all[k] == p;
      var i :| 0 <= i < n && all[..n][i] == q;
    }
  }

  /** Every chooser's list is a target list ... */
  lemma TargetsSound(closest: seq<Peer>, known: seq<Peer>, choices: nat -> nat, dist: Metric)
    requires Injective(dist)
    ensures IsTargetList(closest, known, Targets(closest, known, choices, dist), dist)
  {
    var primary := Rank(closest, dist);
    var group := Min(|primary|, CLOSE_GROUP_SIZE);
    RankContract(closest, dist);
    RankSize(closest, dist);
    var r, f := Spread(primary, group, choices, 0), Fallback(closest, known, dist);
    SpreadPermutes(primary, group, choices, 0);
    SpreadKeepsGroupNearest(primary, group, choices, dist);
    PermutationNoDup(primary, r);
    SameElements(r, primary);
    FallbackContract(closest, known, dist);
    StrictNoDup(f, dist);
    var t := Targets(closest, known, choices, dist);
    assert t[..|r|] == r && t[|r|..] == f;
    assert Elems(r) == Elems(closest);
    JoinNoDup(r, f);
  }

  lemma JoinNoDup(a: seq<Peer>, b: seq<Peer>)
    requires NoDup(a) && NoDup(b) && Elems(a) !! Elems(b)
    ensures NoDup(a + b)
  {
    forall i, j | 0 <= i < j < |a + b|
      ensures (a + b)[i] != (a + b)[j]
    {
      if i < |a| <= j {
        assert a[i] in Elems(a) && b[j - |a|] in Elems(b);
      }
    }
  }

  /** Beyond the close group a target list's discovered part is in XOR order. */
  lemma TargetListTail(closest: seq<Peer>, t: seq<Peer>, j: nat, dist: Metric)
    requires Injective(dist)
    requires NoDup(t) && |t| == |Elems(closest)| && Elems(t) == Elems(closest)
    requires Min(|t|, CLOSE_GROUP_SIZE) <= j < |t|
    requires forall i, k :: 0 <= i < k < |t| && Min(|t|, CLOSE_GROUP_SIZE) <= k ==> dist(t[i]) < dist(t[k])
    ensures |Rank(closest, dist)| == |t| && Rank(closest, dist)[j] == t[j]
  {
    var primary := Rank(closest, dist);
    RankContract(closest, dist);
    RankSize(closest, dist);
    var before := t[..j];
    assert NearerThan(Elems(t), t[j], dist) == (set p | p in before);
    DistinctCardinality(before);
    assert t[j] in Elems(t) && t[j] in primary;
    var m :| 0 <= m < |primary| && primary[m] == t[j];
    RankPosition(primary, m, dist);
  }

  /** The front of a target list is a shuffle of the close group. */
  lemma HeadIsShuffled(closest: seq<Peer>, head: seq<Peer>, dist: Metric) returns (choices: nat -> nat)
    requires Injective(dist) && NoDup(head) && |head| == |Elems(closest)| && Elems(head) == Elems(closest)
    requires forall i, k :: 0 <= i < k < |head| && Min(|head|, CLOSE_GROUP_SIZE) <= k ==> dist(head[i]) < dist(head[k])
    ensures |Rank(closest, dist)| == |head|
    ensures head == Spread(Rank(closest, dist), Min(|head|, CLOSE_GROUP_SIZE), choices, 0)
  {
    hide Spread, Rank;
    var primary := Rank(closest, dist);
    RankContract(closest, dist);
    RankSize(closest, dist);
    forall j | Min(|head|, CLOSE_GROUP_SIZE) <= j < |head|
      ensures primary[j] == head[j]
    {
      TargetListTail(closest, head, j, dist);
    }
    forall p
      ensures p in primary <==> p in head
    {
      assert p in closest <==> p in Elems(closest);
      assert p in head <==> p in Elems(head);
    }
    StrictNoDup(primary, dist);
    NoDupPermutation(head, primary);
    hide Elems, NoDup, Strict, Injective;
    choices := SpreadSurjective(primary, Min(|head|, CLOSE_GROUP_SIZE), head, 0);
  }

  /** ... and every target list is some chooser's. */
  lemma TargetsComplete(closest: seq<Peer>, known: seq<Peer>, t: seq<Peer>, dist: Metric) returns (choices: nat -> nat)
    requires Injective(dist) && IsTargetList(closest, known, t, dist)
    ensures t == Targets(closest, known, choices, dist)
  {
    hide Spread, Rank, Elems, Others, Fallback, Injective, Strict;
    var n := |Elems(closest)|;
    choices := HeadIsShuffled(closest, t[..n], dist);
    FallbackUnique(closest, known, t[n..], dist);
    assert t == t[..n] + t[n..];
  }

  lemma FallbackUnique(closest: seq<Peer>, known: seq<Peer>, f: seq<Peer>, dist: Metric)
    requires Injective(dist)
    requires |f| <= MAX_GET_FALLBACK_PEERS && Strict(f, dist) && Elems(f) <= Others(closest, known)
    requires forall p :: p in Others(closest, known) && p !in f ==>
               |f| == MAX_GET_FALLBACK_PEERS && forall q :: q in f ==> dist(q) < dist(p)
    ensures f == Fallback(closest, known, dist)
  {
    var all := Filter(Rank(known, dist), Others(closest, known));
    RankContract(known, dist);
    FilterStrict(Rank(known, dist), Others(closest, known), dist);
    forall p | p in f
      ensures p in all
    {
      assert p in Elems(f) && p in Elems(known);
    }
    hide Rank, Filter, Elems, Others, Injective;
    StrictSizes(f, all, dist);
    forall k | 0 <= k < |f|
      ensures f[k] == all[k]
    {
      SamePrefix(f, all, k, dist);
    }
  }

  lemma StrictSizes(f: seq<Peer>, all: seq<Peer>, dist: Metric)
    requires Strict(f, dist) && Strict(all, dist) && forall p :: p in f ==> p in all
    ensures |f| <= |all|
    ensures (forall p :: p in all ==> p in f) ==> |f| == |all|
  {
    StrictNoDup(f, dist);
    StrictNoDup(all, dist);
    DistinctCardinality(f);
    DistinctCardinality(all);
    hide Strict, NoDup;
    SubsetCardinality(set p | p in f, set p | p in all);
    if forall p :: p in all ==> p in f {
      assert (set p | p in all) == (set p | p in f);
    }
  }

  /** A strict sequence closed downwards in another is its prefix. */
  lemma SamePrefix(f: seq<Peer>, all: seq<Peer>, k: nat, dist: Metric)
    requires Strict(f, dist) && Strict(all, dist) && k < |f| <= |all|
    requires forall p :: p in f ==> p in all
    requires forall p :: p in all && p !in f ==> forall q :: q in f ==> dist(q) < dist(p)
    ensures f[k] == all[k]
  {
    assert NearerThan(Elems(f), f[k], dist) == NearerThan(Elems(all), f[k], dist) by {
      assert f[k] in f;
    }
    RankPosition(f, k, dist);
    assert f[k] in f && f[k] in all;
    var m :| 0 <= m < |all| && all[m] == f[k];
    RankPosition(all, m, dist);
  }
}
