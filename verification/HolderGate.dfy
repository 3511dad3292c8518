/** The holder gate of `client_engine/kad_read.rs` as the source keeps it: a
    vector of waiting holders, a count and the newest start. Each of its methods
    does to the vector what a step of `KadRead` does to the gate's part of the
    read's state, for any chooser. */
module HolderGate {
  import opened Prelude
  import opened Sorting
  import opened ReadOrder
  import opened KadRead

  datatype Holder = Unanswered(id: StepId, peer: Peer) | Answered(id: StepId, peer: Peer)

  predicate Distinct(queue: seq<Holder>) {
    forall i, j :: 0 <= i < j < |queue| ==> queue[i].id != queue[j].id
  }

  predicate Keeps(h: Holder, stillLikely: Peer -> bool) {
    h.Answered? ==> stillLikely(h.peer)
  }

  function Retain(queue: seq<Holder>, stillLikely: Peer -> bool): (r: seq<Holder>)
    ensures forall h :: h in r <==> h in queue && Keeps(h, stillLikely)
    ensures |r| <= |queue|
  {
    if queue == [] then []
    else
      assert queue == [queue[0]] + queue[1..];
      (if Keeps(queue[0], stillLikely) then [queue[0]] else []) + Retain(queue[1..], stillLikely)
  }

  lemma {:induction false} RetainDistinct(queue: seq<Holder>, stillLikely: Peer -> bool)
    requires Distinct(queue)
    ensures Distinct(Retain(queue, stillLikely))
  {
    if queue != [] {
      RetainDistinct(queue[1..], stillLikely);
      var rest := Retain(queue[1..], stillLikely);
      forall k | 0 <= k < |rest|
        ensures rest[k].id != queue[0].id
      {
        assert rest[k] in rest && rest[k] in queue[1..];
      }
    }
  }

  lemma DistinctPermutation(a: seq<Holder>, b: seq<Holder>)
    requires Distinct(a) && multiset(a) == multiset(b)
    ensures Distinct(b)
  {
    assert NoDup(a);
    PermutationNoDup(a, b);
    SameElements(a, b);
    forall i, j | 0 <= i < j < |b|
      ensures b[i].id != b[j].id
    {
      assert b[i] in a && b[j] in a;
    }
  }

  function RemoveAt(queue: seq<Holder>, i: nat): seq<Holder>
    requires i < |queue|
  {
    queue[..i] + queue[i + 1..]
  }

  lemma RemoveAtMembers(queue: seq<Holder>, i: nat)
    requires i < |queue| && Distinct(queue)
    ensures Distinct(RemoveAt(queue, i))
    ensures forall h :: h in RemoveAt(queue, i) <==> h in queue && h != queue[i]
  {
    var r := RemoveAt(queue, i);
    forall h
      ensures h in r <==> h in queue && h != queue[i]
    {
      if h in queue && h != queue[i] {
        var k :| 0 <= k < |queue| && queue[k] == h;
        assert r[if k < i then k else k - 1] == h;
      }
      if h in r {
        var k :| 0 <= k < |r| && r[k] == h;
        assert queue[if k < i then k else k + 1] == h;
      }
    }
  }

  function Nearest(dist: Metric): Holder -> nat {
    (h: Holder) => dist(h.peer)
  }

  function Nearer(queue: seq<Holder>, h: Holder, dist: Metric): set<Holder> {
    set x | x in queue && dist(x.peer) < dist(h.peer)
  }

  function NotFarther(queue: seq<Holder>, h: Holder, dist: Metric): set<Holder> {
    set x | x in queue && dist(x.peer) <= dist(h.peer)
  }

  /** The holder at place `i` of a queue in XOR order. */
  predicate AtPlace(queue: seq<Holder>, h: Holder, i: nat, dist: Metric) {
    h in queue && |Nearer(queue, h, dist)| <= i < |NotFarther(queue, h, dist)|
  }

  lemma SortedPlace(kept: seq<Holder>, sorted: seq<Holder>, dist: Metric, i: nat)
    requires Distinct(sorted) && Ascending(sorted, Nearest(dist)) && i < |sorted|
    requires forall h :: h in sorted <==> h in kept
    ensures AtPlace(kept, sorted[i], i, dist)
  {
    var h := sorted[i];
    assert forall k :: i <= k < |sorted| ==> Nearest(dist)(h) <= Nearest(dist)(sorted[k]);
    assert forall k :: 0 <= k <= i ==> Nearest(dist)(sorted[k]) <= Nearest(dist)(h);
    forall x | x in Nearer(kept, h, dist)
      ensures x in sorted[..i]
    {
      var k :| 0 <= k < |sorted| && sorted[k] == x;
      assert sorted[..i][k] == x;
    }
    DistinctNoDup(sorted);
    FewerThan(Nearer(kept, h, dist), sorted[..i]);
    assert forall x :: x in sorted[..i + 1] ==> x in NotFarther(kept, h, dist);
    DistinctWithin(sorted[..i + 1], NotFarther(kept, h, dist));
    assert h in sorted;
  }

  lemma DistinctNoDup(queue: seq<Holder>)
    requires Distinct(queue)
    ensures NoDup(queue)
  {
  }

  lemma FewerThan(some: set<Holder>, queue: seq<Holder>)
    requires NoDup(queue) && forall x :: x in some ==> x in queue
    ensures |some| <= |queue|
  {
    DistinctCardinality(queue);
    SubsetCardinality(some, set x | x in queue);
  }

  /** Taking place `i` of the kept holders in XOR order. */
  lemma TakeSorted(kept: seq<Holder>, dist: Metric, i: nat)
    requires Distinct(kept) && i < |kept|
    ensures var sorted := Sort(kept, Nearest(dist));
      && |sorted| == |kept| && sorted[i] in kept && AtPlace(kept, sorted[i], i, dist)
      && Distinct(RemoveAt(sorted, i))
      && (forall h :: h in RemoveAt(sorted, i) <==> h in kept && h != sorted[i])
  {
    var sorted := Sort(kept, Nearest(dist));
    SortContract(kept, Nearest(dist));
    SortKeepsElements(kept, Nearest(dist));
    DistinctPermutation(kept, sorted);
    RemoveAtMembers(sorted, i);
    SortedPlace(kept, sorted, dist, i);
  }

  /** The holders that have answered the lookup, or those that have not, in order. */
  function Only(queue: seq<Holder>, answered: bool): (r: seq<Holder>)
    ensures forall h :: h in r <==> h in queue && h.Answered? == answered
  {
    if queue == [] then []
    else
      var last := |queue| - 1;
      assert queue == queue[..last] + [queue[last]];
      Only(queue[..last], answered) + if queue[last].Answered? == answered then [queue[last]] else []
  }

  lemma OnlyOfNone()
    ensures Only([], true) == [] && Only([], false) == []
  {
  }

  lemma OnlyOneMore(queue: seq<Holder>, i: nat, answered: bool)
    requires i < |queue|
    ensures Only(queue[..i + 1], answered) ==
              Only(queue[..i], answered) + if queue[i].Answered? == answered then [queue[i]] else []
  {
    assert queue[..i + 1][..i] == queue[..i];
  }

  lemma {:induction false} OnlyDistinct(queue: seq<Holder>, answered: bool)
    requires Distinct(queue)
    ensures Distinct(Only(queue, answered))
  {
    if queue != [] {
      var last := |queue| - 1;
      OnlyDistinct(queue[..last], answered);
      var rest := Only(queue[..last], answered);
      forall k | 0 <= k < |rest|
        ensures rest[k].id != queue[last].id
      {
        assert rest[k] in rest && rest[k] in queue[..last];
      }
    }
  }

  // The gate's part of the read's state

  datatype Gated = Gated(queued: seq<Holder>, inFlight: nat, newestStart: Option<nat>)

  /** The gate holds what the machine's state says it holds. */
  ghost predicate Shows(g: Gated, s: State) {
    && g.inFlight == s.inFlight && g.newestStart == s.newestStart
    && (forall h :: h in g.queued ==>
          h.id in s.queued && s.queued[h.id] == h.Answered? && h.id in s.steps && s.steps[h.id].peer == h.peer)
    && (forall id :: id in s.queued ==> HasId(g.queued, id))
  }

  ghost predicate HasId(queue: seq<Holder>, id: StepId) {
    exists h :: h in queue && h.id == id
  }

  /** The caller judges holders as the machine does. */
  ghost predicate Judges(stillLikely: Peer -> bool, dist: Metric, s: State) {
    forall p :: stillLikely(p) == LikelyHolder(s.known, p, dist)
  }

  lemma StaleIsDropped(g: Gated, dist: Metric, s: State, stillLikely: Peer -> bool, h: Holder)
    requires Shows(g, s) && Judges(stillLikely, dist, s) && h in g.queued
    ensures Stale(s, h.id, dist) <==> !Keeps(h, stillLikely)
  {
  }

  lemma SameHolder(queue: seq<Holder>, h: Holder, x: Holder)
    requires Distinct(queue) && h in queue && x in queue && h.id == x.id
    ensures h == x
  {
  }

  lemma ReleaseShown(g: Gated, t: Gated, dist: Metric, s: State, stillLikely: Peer -> bool, h: Holder)
    requires Distinct(g.queued) && Shows(g, s) && Judges(stillLikely, dist, s)
    requires h in g.queued && Keeps(h, stillLikely)
    requires forall x :: x in t.queued <==> x in g.queued && Keeps(x, stillLikely) && x != h
    requires t.inFlight == g.inFlight + 1 && t.newestStart == Some(s.now)
    ensures h.id in s.queued && !Stale(s, h.id, dist) && Shows(t, ApplyRelease(dist, s, h.id))
  {
    hide LikelyHolder;
    StaleIsDropped(g, dist, s, stillLikely, h);
    var after := ApplyRelease(dist, s, h.id);
    forall x | x in t.queued
      ensures x.id in after.queued && after.queued[x.id] == x.Answered?
    {
      StaleIsDropped(g, dist, s, stillLikely, x);
      if x.id == h.id { SameHolder(g.queued, x, h); }
    }
    forall id | id in after.queued
      ensures HasId(t.queued, id)
    {
      var x :| x in g.queued && x.id == id;
      StaleIsDropped(g, dist, s, stillLikely, x);
      assert x in t.queued;
    }
  }

  lemma NoneShown(g: Gated, dist: Metric, s: State, stillLikely: Peer -> bool)
    requires Shows(g, s) && Judges(stillLikely, dist, s) && s.phase.Releasing?
    requires MayRelease(s) ==> forall h :: h in g.queued ==> !Keeps(h, stillLikely)
    ensures Enabled(dist, s, ReleaseNone)
    ensures Shows(if MayRelease(s) then g.(queued := []) else g, Apply(dist, s, ReleaseNone))
  {
    hide LikelyHolder;
    if MayRelease(s) {
      forall id | id in s.queued
        ensures Stale(s, id, dist)
      {
        assert HasId(g.queued, id);
        var h :| h in g.queued && h.id == id;
        StaleIsDropped(g, dist, s, stillLikely, h);
      }
    }
  }

  lemma SplitIds(g: Gated, s: State, id: StepId)
    requires Shows(g, s) && id in s.queued
    ensures HasId(Only(g.queued, s.queued[id]), id)
  {
    hide Only;
    assert HasId(g.queued, id);
    var h :| h in g.queued && h.id == id;
    assert h in Only(g.queued, s.queued[id]);
  }

  lemma RouteRestQueue(s: State)
    ensures var t := ApplyRouteRest(s);
      && t.inFlight == s.inFlight && t.newestStart == s.newestStart && t.steps == s.steps
      && (forall id :: id in t.queued <==> id in s.queued && s.queued[id])
      && (forall id :: id in t.queued ==> t.queued[id])
  {
  }

  lemma RouteRestShown(g: Gated, s: State)
    requires Shows(g, s)
    ensures Shows(g.(queued := Only(g.queued, true)), ApplyRouteRest(s))
    ensures forall id :: HasId(Only(g.queued, false), id) <==> id in s.queued && !s.queued[id]
  {
    hide Only, ApplyRouteRest;
    RouteRestQueue(s);
    forall id | id in s.queued
      ensures HasId(Only(g.queued, s.queued[id]), id)
    {
      SplitIds(g, s, id);
    }
  }

  /** A lookup step as the loop receives it. */
  datatype Arrival = Arrival(id: StepId, peer: Peer, likely: bool)

  /** The steps received are those in the machine's inbox. */
  ghost predicate Arrives(arrived: seq<Arrival>, s: State) {
    && (forall a :: a in arrived ==>
          a.id in s.inbox && a.id !in s.queued && a.id in s.steps && s.steps[a.id] == Step(a.peer, a.likely))
    && (forall id :: id in s.inbox ==> exists a :: a in arrived && a.id == id)
  }

  function Likely(arrived: seq<Arrival>): (r: seq<Holder>)
    ensures forall h :: h in r ==> h.Unanswered? && Arrival(h.id, h.peer, true) in arrived
    ensures forall a :: a in arrived && a.likely ==> Unanswered(a.id, a.peer) in r
  {
    if arrived == [] then []
    else
      var last := |arrived| - 1;
      assert arrived == arrived[..last] + [arrived[last]];
      Likely(arrived[..last]) + if arrived[last].likely then [Unanswered(arrived[last].id, arrived[last].peer)] else []
  }

  function Unlikely(arrived: seq<Arrival>): (r: seq<Arrival>)
    ensures forall a :: a in r <==> a in arrived && !a.likely
  {
    if arrived == [] then []
    else
      var last := |arrived| - 1;
      assert arrived == arrived[..last] + [arrived[last]];
      Unlikely(arrived[..last]) + if arrived[last].likely then [] else [arrived[last]]
  }

  lemma ArrivalsDrain(g: Gated, s: State, arrived: seq<Arrival>)
    requires Shows(g, s) && Arrives(arrived, s)
    ensures Shows(g.(queued := g.queued + Likely(arrived)), ApplyDrain(s))
    ensures forall id :: id in s.inbox && !LikelyStep(s, id) <==> exists a :: a in Unlikely(arrived) && a.id == id
  {
    forall id | id in s.inbox && LikelyStep(s, id)
      ensures HasId(Likely(arrived), id)
    {
      var a :| a in arrived && a.id == id;
      assert Unanswered(a.id, a.peer) in Likely(arrived);
    }
    DrainShown(g, s, Likely(arrived));
  }

  /** Queueing every likely step of the inbox, one by one, is the machine's drain. */
  lemma DrainShown(g: Gated, s: State, added: seq<Holder>)
    requires Shows(g, s) && forall id :: id in s.inbox ==> id !in s.queued
    requires forall h :: h in added ==>
               h.Unanswered? && h.id in s.inbox && LikelyStep(s, h.id) && s.steps[h.id].peer == h.peer
    requires forall id :: id in s.inbox && LikelyStep(s, id) ==> HasId(added, id)
    ensures Shows(g.(queued := g.queued + added), ApplyDrain(s))
  {
    var t := ApplyDrain(s);
    forall id | id in t.queued
      ensures HasId(g.queued + added, id)
    {
      var part := if id in s.queued then g.queued else added;
      assert HasId(part, id);
      var x :| x in part && x.id == id;
      assert x in g.queued + added;
    }
  }

  lemma QueueShown(g: Gated, s: State, h: Holder)
    requires Shows(g, s) && h.Answered? && h.id in s.steps && s.steps[h.id].peer == h.peer
    requires h.id in s.routes && s.routes[h.id] == RouteDone(true) && h.id !in s.queued
    ensures Shows(g.(queued := g.queued + [h]), ApplyRouteEnds(s, h.id))
  {
    var t := ApplyRouteEnds(s, h.id);
    forall id | id in t.queued
      ensures HasId(g.queued + [h], id)
    {
      if id == h.id {
        assert h in g.queued + [h];
      } else {
        assert HasId(g.queued, id);
        var x :| x in g.queued && x.id == id;
        assert x in g.queued + [h];
      }
    }
  }

  class Gate {
    const dist: Metric
    var queued: seq<Holder>
    var inFlight: nat
    var newestStart: Option<nat>

    ghost predicate Valid()
      reads this
    {
      Distinct(queued)
    }

    function View(): Gated
      reads this
    {
      Gated(queued, inFlight, newestStart)
    }

    constructor (dist: Metric)
      ensures Valid() && this.dist == dist && queued == [] && inFlight == 0 && newestStart == None
    {
      this.dist := dist;
      queued, inFlight, newestStart := [], 0, None;
    }

    method Queue(h: Holder)
      requires Valid() && forall k :: 0 <= k < |queued| ==> queued[k].id != h.id
      modifies this`queued
      ensures Valid() && queued == old(queued) + [h]
      // a route that ended, with its peer still to be asked
      ensures forall s :: old(Shows(View(), s)) && h.Answered? && h.id in s.steps && s.steps[h.id].peer == h.peer
                          && h.id in s.routes && s.routes[h.id] == RouteDone(true) && h.id !in s.queued ==>
                            Shows(View(), ApplyRouteEnds(s, h.id))
    {
      ghost var before := View();
      queued := queued + [h];
      forall s | Shows(before, s) && h.Answered? && h.id in s.steps && s.steps[h.id].peer == h.peer
                 && h.id in s.routes && s.routes[h.id] == RouteDone(true) && h.id !in s.queued
        ensures Shows(View(), ApplyRouteEnds(s, h.id))
      {
        QueueShown(before, s, h);
      }
    }

    /** Whether one may start now beside those running. */
    predicate MayStart(now: nat)
      reads this
    {
      inFlight == 0 || HedgeDue(inFlight, newestStart, now)
    }

    /** Release the holder at place `choice` in XOR order, if one may start now. Held
        back, nothing changes; otherwise answered holders that are no longer likely
        are dropped, and one of the others goes if there is one. To the machine this
        is the release of that holder, or the end of releasing. */
    method NextReady(now: nat, stillLikely: Peer -> bool, choice: nat) returns (released: Option<Holder>)
      requires Valid()
      modifies this
      ensures Valid()
      ensures !old(MayStart(now)) ==> released.None? && View() == old(View())
      ensures old(MayStart(now)) && released.None? ==>
                (forall h :: h in old(queued) ==> !Keeps(h, stillLikely)) && View() == old(View()).(queued := [])
      ensures released.Some? ==>
                && old(MayStart(now))
                && released.value in old(queued) && Keeps(released.value, stillLikely)
                && (forall h :: h in queued <==> h in old(queued) && Keeps(h, stillLikely) && h != released.value)
                && inFlight == old(inFlight) + 1 && newestStart == Some(now)
                && var kept := Retain(old(queued), stillLikely);
                   kept != [] && AtPlace(kept, released.value, Min(choice, |kept| - 1), dist)
      ensures forall s | old(Shows(View(), s)) && s.now == now && s.phase.Releasing? && Judges(stillLikely, dist, s) ::
                match released
                case Some(h) => Enabled(dist, s, Release(h.id)) && Shows(View(), Apply(dist, s, Release(h.id)))
                case None => Enabled(dist, s, ReleaseNone) && Shows(View(), Apply(dist, s, ReleaseNone))
    {
      ghost var before := View();
      hide Sort, RemoveAt, Distinct, Shows, Judges, AtPlace, Stale;
      if inFlight > 0 && !HedgeDue(inFlight, newestStart, now) {
        NoneReleased(before, dist, now, stillLikely);
        return None;
      }
      RetainDistinct(queued, stillLikely);
      var kept := Retain(queued, stillLikely);
      if kept == [] {
        assert forall h :: h in queued && Keeps(h, stillLikely) ==> h in kept;
        NoneReleased(before, dist, now, stillLikely);
        queued := kept;
        return None;
      }
      var chosen := Min(choice, |kept| - 1);
      TakeSorted(kept, dist, chosen);
      var sorted := Sort(kept, Nearest(dist));
      inFlight := inFlight + 1;
      newestStart := Some(now);
      queued := RemoveAt(sorted, chosen);
      released := Some(sorted[chosen]);
      OneReleased(before, View(), dist, now, stillLikely, sorted[chosen]);
    }

    /** Hand over the holders that have not answered the lookup, in queue order, and
        keep the rest: the machine routes the former. */
    method TakeUnanswered() returns (steps: seq<Holder>)
      requires Valid()
      modifies this`queued
      ensures Valid()
      ensures queued == Only(old(queued), true) && steps == Only(old(queued), false) && Distinct(steps)
      ensures forall s :: old(Shows(View(), s)) ==>
                && Shows(View(), ApplyRouteRest(s))
                && forall id :: HasId(steps, id) <==> id in s.queued && !s.queued[id]
    {
      hide Shows, HasId, Distinct, Only;
      ghost var before := View();
      var kept: seq<Holder> := [];
      steps := [];
      OnlyOfNone();
      for i := 0 to |queued|
        invariant queued == old(queued)
        invariant queued[..0] == [] && kept == Only(queued[..i], true) && steps == Only(queued[..i], false)
      {
        OnlyOneMore(queued, i, true);
        OnlyOneMore(queued, i, false);
        if queued[i].Unanswered? {
          steps := steps + [queued[i]];
        } else {
          kept := kept + [queued[i]];
        }
      }
      assert queued[..|queued|] == queued;
      OnlyDistinct(queued, true);
      OnlyDistinct(queued, false);
      queued := kept;
      forall s | Shows(before, s)
        ensures Shows(View(), ApplyRouteRest(s))
        ensures forall id :: HasId(steps, id) <==> id in s.queued && !s.queued[id]
      {
        RouteRestShown(before, s);
      }
    }

    /** A released holder finished without the chunk. */
    method Finished()
      modifies this`inFlight
      ensures inFlight == if old(inFlight) == 0 then 0 else old(inFlight) - 1
      ensures forall s, id :: old(Shows(View(), s)) && id in s.fetches && s.fetches[id].FetchDone? ==>
                Shows(View(), ApplyFetchEnds(s, id))
    {
      inFlight := if inFlight == 0 then 0 else inFlight - 1;
    }

    /** When the next queued holder may start, if one waits on a running one: the
        machine's deadline, and exactly when a hedge is due. */
    method NextHedge() returns (deadline: Option<nat>)
      ensures deadline.Some? <==> queued != [] && 0 < inFlight < MAX_HOLDER_REQUESTS && newestStart.Some?
      ensures deadline.Some? ==> forall now: nat :: HedgeDue(inFlight, newestStart, now) <==> now >= deadline.value
      ensures forall s :: Shows(View(), s) ==> deadline == HedgeDeadline(s)
    {
      if queued == [] || inFlight == 0 || inFlight >= MAX_HOLDER_REQUESTS || newestStart.None? {
        deadline := None;
      } else {
        deadline := Some(newestStart.value + HOLDER_HEDGE_DELAY);
      }
      forall s | Shows(View(), s)
        ensures deadline == HedgeDeadline(s)
      {
        if queued != [] { assert queued[0] in queued && queued[0].id in s.queued; }
        if s.queued != map[] { QueueNotEmpty(View(), s); }
      }
    }
  }

  /** No two of the steps received are one, nor is any queued already. */
  ghost predicate AllNew(arrived: seq<Arrival>, queue: seq<Holder>) {
    && (forall i, j :: 0 <= i < j < |arrived| ==> arrived[i].id != arrived[j].id)
    && (forall a, h :: a in arrived && h in queue ==> a.id != h.id)
  }

  /** Take every step received: likely holders queue at the gate, the others are to
      be routed at once. To the machine this is the drain of its inbox. */
  method DrainArrived(gate: Gate, arrived: seq<Arrival>) returns (routed: seq<Arrival>)
    requires gate.Valid() && AllNew(arrived, gate.queued)
    modifies gate`queued
    ensures gate.Valid()
    ensures gate.queued == old(gate.queued) + Likely(arrived) && routed == Unlikely(arrived)
    ensures forall s :: old(Shows(gate.View(), s)) && Arrives(arrived, s) ==>
              && Shows(gate.View(), ApplyDrain(s))
              && forall id :: id in s.inbox && !LikelyStep(s, id) <==> exists a :: a in routed && a.id == id
  {
    hide Shows, Likely, Unlikely, AllNew, Arrives, Distinct;
    ghost var before := gate.View();
    routed := [];
    NoArrivals();
    for i := 0 to |arrived|
      invariant arrived[..0] == [] && gate.Valid() && gate.inFlight == before.inFlight
                && gate.newestStart == before.newestStart
      invariant gate.queued == before.queued + Likely(arrived[..i]) && routed == Unlikely(arrived[..i])
    {
      var a := arrived[i];
      ArrivalNew(arrived, before.queued, i);
      OneMoreArrival(arrived, i);
      if a.likely {
        gate.Queue(Unanswered(a.id, a.peer));
      } else {
        routed := routed + [a];
      }
    }
    assert arrived[..|arrived|] == arrived;
    forall s | Shows(before, s) && Arrives(arrived, s)
      ensures Shows(gate.View(), ApplyDrain(s))
      ensures forall id :: id in s.inbox && !LikelyStep(s, id) <==> exists a :: a in routed && a.id == id
    {
      ArrivalsDrain(before, s, arrived);
    }
  }

  lemma NoArrivals()
    ensures Likely([]) == [] && Unlikely([]) == []
  {
  }

  lemma OneMoreArrival(arrived: seq<Arrival>, i: nat)
    requires i < |arrived|
    ensures var a := arrived[i];
      && Likely(arrived[..i + 1]) == Likely(arrived[..i]) + (if a.likely then [Unanswered(a.id, a.peer)] else [])
      && Unlikely(arrived[..i + 1]) == Unlikely(arrived[..i]) + (if a.likely then [] else [a])
  {
    assert arrived[..i + 1][..i] == arrived[..i];
  }

  lemma ArrivalNew(arrived: seq<Arrival>, queue: seq<Holder>, i: nat)
    requires AllNew(arrived, queue) && i < |arrived|
    ensures forall k :: 0 <= k < |queue + Likely(arrived[..i])| ==>
              (queue + Likely(arrived[..i]))[k].id != arrived[i].id
  {
    var all := queue + Likely(arrived[..i]);
    forall k | 0 <= k < |all|
      ensures all[k].id != arrived[i].id
    {
      if k < |queue| {
        assert queue[k] in queue && arrived[i] in arrived;
      } else {
        assert all[k] in Likely(arrived[..i]);
        assert Arrival(all[k].id, all[k].peer, true) in arrived[..i];
      }
    }
  }

  lemma QueueNotEmpty(g: Gated, s: State)
    requires Shows(g, s) && s.queued != map[]
    ensures g.queued != []
  {
    assert s.queued.Keys != {};
    var id :| id in s.queued;
    assert HasId(g.queued, id);
  }

  lemma NoneReleased(g: Gated, dist: Metric, now: nat, stillLikely: Peer -> bool)
    requires g.inFlight == 0 || HedgeDue(g.inFlight, g.newestStart, now) ==>
               forall h :: h in g.queued ==> !Keeps(h, stillLikely)
    ensures var t := if g.inFlight == 0 || HedgeDue(g.inFlight, g.newestStart, now) then g.(queued := []) else g;
      forall s :: Shows(g, s) && s.now == now && s.phase.Releasing? && Judges(stillLikely, dist, s) ==>
        Enabled(dist, s, ReleaseNone) && Shows(t, Apply(dist, s, ReleaseNone))
  {
    forall s | Shows(g, s) && s.now == now && s.phase.Releasing? && Judges(stillLikely, dist, s)
      ensures var t := if g.inFlight == 0 || HedgeDue(g.inFlight, g.newestStart, now) then g.(queued := []) else g;
        Enabled(dist, s, ReleaseNone) && Shows(t, Apply(dist, s, ReleaseNone))
    {
      assert MayRelease(s) <==> g.inFlight == 0 || HedgeDue(g.inFlight, g.newestStart, now);
      NoneShown(g, dist, s, stillLikely);
    }
  }

  lemma OneReleased(g: Gated, t: Gated, dist: Metric, now: nat, stillLikely: Peer -> bool, h: Holder)
    requires Distinct(g.queued) && (g.inFlight == 0 || HedgeDue(g.inFlight, g.newestStart, now))
    requires h in g.queued && Keeps(h, stillLikely)
    requires forall x :: x in t.queued <==> x in g.queued && Keeps(x, stillLikely) && x != h
    requires t.inFlight == g.inFlight + 1 && t.newestStart == Some(now)
    ensures forall s :: Shows(g, s) && s.now == now && s.phase.Releasing? && Judges(stillLikely, dist, s) ==>
              Enabled(dist, s, Release(h.id)) && Shows(t, Apply(dist, s, Release(h.id)))
  {
    forall s | Shows(g, s) && s.now == now && s.phase.Releasing? && Judges(stillLikely, dist, s)
      ensures Enabled(dist, s, Release(h.id)) && Shows(t, Apply(dist, s, Release(h.id)))
    {
      ReleaseShown(g, t, dist, s, stillLikely, h);
      assert MayRelease(s);
    }
  }
}
