/** Which quote a single-node payment pays, `payment_policy.rs`: quotes are ranked
    by price, ties in input order, and the upper median is paid three times. */
module MedianPayment {
  import opened Prelude
  import opened Sorting

  const SINGLE_NODE_PAYMENT_MULTIPLIER: nat := 3

  datatype PaymentPlanError = InvalidQuoteCount(count: nat) | PriceOverflow

  datatype PlannedQuote = PlannedQuote(quoteIndex: nat, amount: nat)

  datatype Plan = Plan(quotes: seq<PlannedQuote>, paidPosition: nat)

  function Price(prices: seq<nat>): nat -> nat {
    (i: nat) => if i < |prices| then prices[i] else 0
  }

  function Rank(prices: seq<nat>): seq<nat> {
    Sort(Positions(|prices|), Price(prices))
  }

  /** Quote `i` ranks before quote `j`. */
  predicate Before(prices: seq<nat>, i: nat, j: nat)
    requires i < |prices| && j < |prices|
  {
    prices[i] < prices[j] || (prices[i] == prices[j] && i < j)
  }

  /** Listed by price, ties in input order. */
  ghost predicate Ranked(prices: seq<nat>, r: seq<nat>) {
    && (forall k :: 0 <= k < |r| ==> r[k] < |prices|)
    && (forall k, m :: 0 <= k < m < |r| ==> Before(prices, r[k], r[m]))
  }

  /** A ranking lists every quote once, cheapest first, ties in input order. */
  ghost predicate IsRanking(prices: seq<nat>, r: seq<nat>) {
    && |r| == |prices|
    && (forall i :: 0 <= i < |prices| ==> i in r)
    && Ranked(prices, r)
  }

  lemma RankedTail(prices: seq<nat>, s: seq<nat>)
    requires s != [] && Ranked(prices, s)
    ensures Ranked(prices, s[1..]) && forall y :: y in s[1..] ==> y in s
  {
    forall k, m | 0 <= k < m < |s[1..]|
      ensures Before(prices, s[1..][k], s[1..][m])
    {
      assert Before(prices, s[k + 1], s[m + 1]);
    }
  }

  /** Inserting an index below all others puts it before its ties. */
  lemma {:induction false} InsertRanks(prices: seq<nat>, x: nat, s: seq<nat>)
    requires x < |prices| && Ranked(prices, s) && forall y :: y in s ==> x < y
    ensures Ranked(prices, Insert(x, s, Price(prices)))
    ensures forall y :: y in Insert(x, s, Price(prices)) ==> y == x || y in s
  {
    if s == [] || prices[x] <= prices[s[0]] {
      forall k | 0 <= k < |s|
        ensures Before(prices, x, s[k])
      {
        assert s[k] in s;
        assert k == 0 || Before(prices, s[0], s[k]);
      }
    } else {
      RankedTail(prices, s);
      InsertRanks(prices, x, s[1..]);
      var rest: seq<nat> := Insert(x, s[1..], Price(prices));
      forall k | 0 <= k < |rest|
        ensures Before(prices, s[0], rest[k])
      {
        assert rest[k] in rest;
        if rest[k] != x {
          var m :| 0 <= m < |s[1..]| && s[1..][m] == rest[k];
          assert Before(prices, s[0], s[m + 1]);
        }
      }
    }
  }

  lemma {:induction false} SortRanks(prices: seq<nat>, s: seq<nat>)
    requires forall k :: 0 <= k < |s| ==> s[k] < |prices|
    requires forall k, m :: 0 <= k < m < |s| ==> s[k] < s[m]
    ensures Ranked(prices, Sort(s, Price(prices)))
    ensures forall y :: y in Sort(s, Price(prices)) ==> y in s
  {
    if s != [] {
      SortRanks(prices, s[1..]);
      assert forall y :: y in s[1..] ==> s[0] < y;
      InsertRanks(prices, s[0], Sort(s[1..], Price(prices)));
    }
  }

  /** The stable sort ranks. */
  lemma RankIsRanking(prices: seq<nat>)
    ensures IsRanking(prices, Rank(prices))
  {
    var all, r := Positions(|prices|), Rank(prices);
    SortRanks(prices, all);
    SortContract(all, Price(prices));
    forall i | 0 <= i < |prices|
      ensures i in r
    {
      assert all[i] in all;
    }
  }

  /** There is only one ranking. */
  lemma RankingUnique(prices: seq<nat>, a: seq<nat>, b: seq<nat>, k: nat)
    requires IsRanking(prices, a) && IsRanking(prices, b) && k <= |a|
    ensures a[..k] == b[..k]
  {
    if k > 0 {
      RankingUnique(prices, a, b, k - 1);
      var i := k - 1;
      assert a[i] in b && b[i] in a;
      var j :| 0 <= j < |b| && b[j] == a[i];
      var m :| 0 <= m < |a| && a[m] == b[i];
      assert forall q :: 0 <= q < i ==> a[q] == a[..i][q] && b[q] == b[..i][q];
      assert j >= i && m >= i;
      assert a[..k] == a[..i] + [a[i]] && b[..k] == b[..i] + [b[i]];
    }
  }

  function MedianIndex(prices: seq<nat>): (m: nat)
    requires prices != []
    ensures m < |prices|
  {
    RankIsRanking(prices);
    Rank(prices)[|prices| / 2]
  }

  /** The quotes that rank before quote `m`. */
  ghost function Cheaper(prices: seq<nat>, m: nat): set<nat>
    requires m < |prices|
  {
    set i | 0 <= i < |prices| && Before(prices, i, m)
  }

  lemma RankingNoDup(prices: seq<nat>, r: seq<nat>)
    requires IsRanking(prices, r)
    ensures NoDup(r)
  {
    forall k, m | 0 <= k < m < |r|
      ensures r[k] != r[m]
    {
      assert Before(prices, r[k], r[m]);
    }
  }

  /** The median is the quote before which half the quotes, rounded down, rank. */
  lemma MedianIsUpper(prices: seq<nat>)
    requires prices != []
    ensures |Cheaper(prices, MedianIndex(prices))| == |prices| / 2
  {
    RankIsRanking(prices);
    var r := Rank(prices);
    var k := |prices| / 2;
    RankingNoDup(prices, r);
    forall i
      ensures i in Cheaper(prices, r[k]) <==> i in r[..k]
    {
      if i in Cheaper(prices, r[k]) {
        assert i in r;
        var q :| 0 <= q < |r| && r[q] == i;
        assert q < k;
      }
    }
    DistinctWithin(r[..k], Cheaper(prices, r[k]));
  }

  lemma CheaperRanksBefore(prices: seq<nat>, r: seq<nat>, i: nat, k: nat)
    requires IsRanking(prices, r) && i < |prices| && k < |r| && prices[i] < prices[r[k]]
    ensures i in r[..k]
  {
    var q := RankOf(prices, r, i);
    assert forall m :: k < m < |r| ==> Before(prices, r[k], r[m]);
    assert r[..k][q] == i;
  }

  lemma DearerRanksAfter(prices: seq<nat>, r: seq<nat>, i: nat, k: nat)
    requires IsRanking(prices, r) && i < |prices| && k < |r| && prices[r[k]] < prices[i]
    ensures i in r[k + 1..]
  {
    var q := RankOf(prices, r, i);
    assert forall m :: 0 <= m < k ==> Before(prices, r[m], r[k]);
    assert r[k + 1..][q - (k + 1)] == i;
  }

  /** The paid price is between two honest prices. */
  ghost predicate HonestlyBounded(prices: seq<nat>, honest: set<nat>)
    requires prices != [] && forall i :: i in honest ==> i < |prices|
  {
    && (exists i :: i in honest && prices[i] <= prices[MedianIndex(prices)])
    && (exists i :: i in honest && prices[MedianIndex(prices)] <= prices[i])
  }

  lemma HonestMajorityBounds(prices: seq<nat>, honest: set<nat>)
    requires prices != [] && (forall i :: i in honest ==> i < |prices|) && 2 * |honest| > |prices|
    ensures HonestlyBounded(prices, honest)
  {
    RankIsRanking(prices);
    var r, k, n := Rank(prices), |prices| / 2, |prices|;
    RankingNoDup(prices, r);
    if forall i :: i in honest ==> prices[i] < prices[r[k]] {
      forall i | i in honest
        ensures i in r[..k]
      {
        CheaperRanksBefore(prices, r, i, k);
      }
      InPart(honest, r[..k]);
    }
    if forall i :: i in honest ==> prices[r[k]] < prices[i] {
      forall i | i in honest
        ensures i in r[k + 1..]
      {
        DearerRanksAfter(prices, r, i, k);
      }
      InPart(honest, r[k + 1..]);
    }
  }

  /** Honest quotes ask one, the others two. */
  function Outbid(n: nat, honest: set<nat>): (prices: seq<nat>)
    ensures |prices| == n && forall i :: 0 <= i < n ==> prices[i] == if i in honest then 1 else 2
  {
    seq(n, i requires 0 <= i < n => if i in honest then 1 else 2)
  }

  /** Up to half honest quotes can all be outbid. */
  lemma HonestHalfIsOutbid(n: nat, honest: set<nat>)
    requires n > 0 && (forall i :: i in honest ==> i < n) && 2 * |honest| <= n
    ensures !HonestlyBounded(Outbid(n, honest), honest)
  {
    var prices := Outbid(n, honest);
    var m := MedianIndex(prices);
    MedianIsUpper(prices);
    if m in honest {
      assert forall i :: i in Cheaper(prices, m) ==> i in honest - {m};
      SubsetCardinality(Cheaper(prices, m), honest - {m});
    }
  }

  /** The paid price is bounded by honest prices, whatever anyone asks, if and only
      if more than half the quotes are honest. */
  lemma HonestBoundIffMajority(n: nat, honest: set<nat>)
    requires n > 0 && forall i :: i in honest ==> i < n
    ensures (forall prices :: |prices| == n ==> HonestlyBounded(prices, honest)) <==> 2 * |honest| > n
  {
    if 2 * |honest| > n {
      forall prices: seq<nat> | |prices| == n
        ensures HonestlyBounded(prices, honest)
      {
        HonestMajorityBounds(prices, honest);
      }
    } else {
      HonestHalfIsOutbid(n, honest);
    }
  }

  lemma RankOf(prices: seq<nat>, r: seq<nat>, i: nat) returns (q: nat)
    requires IsRanking(prices, r) && i < |prices|
    ensures q < |r| && r[q] == i
  {
    assert i in r;
    q :| 0 <= q < |r| && r[q] == i;
  }

  lemma InPart(honest: set<nat>, part: seq<nat>)
    requires NoDup(part)
    requires forall i :: i in honest ==> i in part
    ensures |honest| <= |part|
  {
    DistinctCardinality(part);
    SubsetCardinality(honest, set q | q in part);
  }

  // The plan

  /** Three times a price, unless it does not fit the amount type, whose largest
      value is `max`. */
  function Enhanced(price: nat, max: nat): Result<nat, PaymentPlanError> {
    var amount := price * SINGLE_NODE_PAYMENT_MULTIPLIER;
    if amount <= max then Ok(amount) else Err(PriceOverflow)
  }

  function Entry(paid: nat, amount: nat, index: nat): PlannedQuote {
    PlannedQuote(index, if index == paid then amount else 0)
  }

  function FromPrices(prices: seq<nat>, max: nat): Result<Plan, PaymentPlanError> {
    if !(1 <= |prices| <= CLOSE_GROUP_SIZE) then Err(InvalidQuoteCount(|prices|))
    else
      var paid := MedianIndex(prices);
      match Enhanced(prices[paid], max)
      case Err(error) => Err(error)
      case Ok(amount) =>
        var r := Rank(prices);
        Ok(Plan(seq(|r|, k requires 0 <= k < |r| => Entry(paid, amount, r[k])), |prices| / 2))
  }

  function Indices(quotes: seq<PlannedQuote>): (r: seq<nat>)
    ensures |r| == |quotes| && forall k :: 0 <= k < |r| ==> r[k] == quotes[k].quoteIndex
  {
    seq(|quotes|, k requires 0 <= k < |quotes| => quotes[k].quoteIndex)
  }

  function Total(quotes: seq<PlannedQuote>): nat {
    if quotes == [] then 0 else quotes[0].amount + Total(quotes[1..])
  }

  /** The quotes that could be paid three times over. */
  ghost function Payable(prices: seq<nat>, max: nat): set<nat> {
    set i | 0 <= i < |prices| && SINGLE_NODE_PAYMENT_MULTIPLIER * prices[i] <= max
  }

  lemma MedianIsPayable(prices: seq<nat>, max: nat)
    requires prices != []
    ensures SINGLE_NODE_PAYMENT_MULTIPLIER * prices[MedianIndex(prices)] <= max <==>
              |Payable(prices, max)| > |prices| / 2
  {
    var m := MedianIndex(prices);
    MedianIsUpper(prices);
    if SINGLE_NODE_PAYMENT_MULTIPLIER * prices[m] <= max {
      SubsetCardinality(Cheaper(prices, m) + {m}, Payable(prices, max));
    } else {
      SubsetCardinality(Payable(prices, max), Cheaper(prices, m));
    }
  }

  /** A plan exists exactly for one to seven quotes of which more than half could
      be paid three times over; how dear the others are plays no part. */
  lemma PlanOrError(prices: seq<nat>, max: nat)
    ensures FromPrices(prices, max).Ok? <==> 1 <= |prices| <= CLOSE_GROUP_SIZE && |Payable(prices, max)| > |prices| / 2
    ensures FromPrices(prices, max) == Err(InvalidQuoteCount(|prices|)) <==> !(1 <= |prices| <= CLOSE_GROUP_SIZE)
    ensures FromPrices(prices, max) == Err(PriceOverflow) <==>
              1 <= |prices| <= CLOSE_GROUP_SIZE && |Payable(prices, max)| <= |prices| / 2
  {
    if prices != [] { MedianIsPayable(prices, max); }
  }

  lemma {:induction false} TotalOfOne(quotes: seq<PlannedQuote>, at: nat)
    requires at < |quotes| && forall k :: 0 <= k < |quotes| && k != at ==> quotes[k].amount == 0
    ensures Total(quotes) == quotes[at].amount
  {
    if at == 0 {
      TotalOfNone(quotes[1..]);
    } else {
      TotalOfOne(quotes[1..], at - 1);
    }
  }

  lemma {:induction false} TotalOfNone(quotes: seq<PlannedQuote>)
    requires forall k :: 0 <= k < |quotes| ==> quotes[k].amount == 0
    ensures Total(quotes) == 0
  {
    if quotes != [] { TotalOfNone(quotes[1..]); }
  }

  /** A plan lists every quote once, and pays three times the median price to the
      median quote and nothing to any other. */
  lemma PlanPaysMedianOnly(prices: seq<nat>, max: nat)
    requires FromPrices(prices, max).Ok?
    ensures var plan := FromPrices(prices, max).value;
      && |plan.quotes| == |prices| && plan.paidPosition < |plan.quotes|
      && IsRanking(prices, Indices(plan.quotes))
      && plan.quotes[plan.paidPosition] == PlannedQuote(MedianIndex(prices), 3 * prices[MedianIndex(prices)])
      && (forall k :: 0 <= k < |plan.quotes| && k != plan.paidPosition ==>
            plan.quotes[k].quoteIndex != MedianIndex(prices) && plan.quotes[k].amount == 0)
      && Total(plan.quotes) == 3 * prices[MedianIndex(prices)]
  {
    var plan := FromPrices(prices, max).value;
    var r := Rank(prices);
    RankIsRanking(prices);
    RankingNoDup(prices, r);
    assert Indices(plan.quotes) == r;
    assert MedianIndex(prices) == r[|prices| / 2];
    assert forall k :: 0 <= k < |r| ==> plan.quotes[k] == Entry(r[|prices| / 2], 3 * prices[r[|prices| / 2]], r[k]);
    TotalOfOne(plan.quotes, plan.paidPosition);
  }
}
