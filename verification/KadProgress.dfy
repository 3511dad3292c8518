/** Why a Kademlia read ends once its lookup has: every event leaves less to do. */
module KadProgress {
  import opened Sums
  import opened ReadOrder
  import opened KadRead

  /** The moves a step has before it at most, by where it is. */
  function FetchWeight(f: Fetch): nat {
    match f
    case Preparing => 4
    case Both => 3
    case FetchDone(_) => 1
    case _ => 2
  }

  function RouteWeight(r: Route): nat {
    match r
    case RoutePreparing(_) => 6
    case RouteFinding(_) => 5
    case RouteDone(waits) => if waits then 4 else 1
  }

  function Weight(s: State, id: StepId): nat {
    if id in s.inbox then 8
    else if id in s.queued then (if s.queued[id] then 3 else 7)
    else if id in s.fetches then FetchWeight(s.fetches[id])
    else if id in s.routes then RouteWeight(s.routes[id])
    else 0
  }

  function Weights(s: State): StepId -> nat {
    id => Weight(s, id)
  }

  ghost function Load(s: State): nat {
    SumOver(s.steps.Keys, Weights(s))
  }

  /** A holder waits that may be released now. */
  predicate ReleaseDue(s: State) {
    s.queued != map[] && MayRelease(s)
  }

  /** Passes to go before the loop waits, or before a step moves. */
  function Passes(s: State): nat {
    match s.phase
    case Draining => if s.inbox != {} || ReleaseDue(s) then 3 else 7
    case Releasing => if ReleaseDue(s) then 2 else 6
    case Routing => 5
    case Selecting => if s.inbox != {} || (s.queued != map[] && s.inFlight < MAX_HOLDER_REQUESTS) then 4 else 0
    case Ended(_) => 0
  }

  ghost function Work(s: State): nat {
    8 * Load(s) + Passes(s)
  }

  /** A step is where it was or has moved on. */
  ghost predicate MovesOn(s: State, t: State) {
    t.steps == s.steps && forall id :: id in s.steps ==> Weight(t, id) <= Weight(s, id)
  }

  /** Some step has moved on. */
  ghost predicate Moved(s: State, t: State) {
    MovesOn(s, t) && exists id :: id in s.steps && Weight(t, id) < Weight(s, id)
  }

  lemma LoadShrinks(s: State, t: State)
    requires MovesOn(s, t)
    ensures Load(t) <= Load(s)
    ensures Moved(s, t) ==> Load(t) < Load(s)
  {
    hide Weight;
    assert Moved(s, t) ==> exists id :: id in s.steps && Weights(t)(id) < Weights(s)(id);
    SumShrinks(s.steps.Keys, Weights(s), Weights(t));
  }

  lemma LessWork(s: State, t: State)
    requires Moved(s, t) || (MovesOn(s, t) && Passes(t) < Passes(s))
    ensures Work(t) < Work(s)
  {
    hide Weight;
    LoadShrinks(s, t);
  }

  // One step of the lookup at a time

  lemma DrainWeight(dist: Metric, s: State, x: StepId)
    requires StepOk(dist, s, x)
    ensures Weight(ApplyDrain(s), x) <= Weight(s, x)
    ensures x in s.inbox ==> x in s.steps && Weight(ApplyDrain(s), x) < Weight(s, x)
  {
    hide LikelyHolder;
  }

  lemma ReleaseWeight(dist: Metric, s: State, id: StepId, x: StepId)
    requires StepOk(dist, s, x) && id in s.queued
    ensures Weight(ApplyRelease(dist, s, id), x) <= Weight(s, x)
    ensures x == id ==> x in s.steps && Weight(ApplyRelease(dist, s, id), x) < Weight(s, x)
  {
    hide LikelyHolder;
  }

  lemma DropWeight(dist: Metric, s: State, x: StepId)
    requires StepOk(dist, s, x)
    ensures Weight(DropStale(dist, s), x) <= Weight(s, x)
    ensures Stale(s, x, dist) ==> Weight(DropStale(dist, s), x) < Weight(s, x)
  {
    hide LikelyHolder;
  }

  lemma DropKeepsSteps(dist: Metric, s: State)
    ensures DropStale(dist, s).steps == s.steps
  {
  }

  lemma PhaseWeight(s: State, x: StepId)
    ensures Weight(s.(phase := Routing), x) == Weight(s, x)
  {
  }

  lemma RouteRestWeight(dist: Metric, s: State, x: StepId)
    requires StepOk(dist, s, x)
    ensures Weight(ApplyRouteRest(s), x) <= Weight(s, x)
  {
    hide LikelyHolder;
  }

  lemma FetchWeightDrops(dist: Metric, s: State, id: StepId, e: Event, x: StepId)
    requires StepOk(dist, s, x) && id in s.fetches && FetchTakes(s.fetches[id], e)
    ensures Weight(ApplyFetch(s, id, s.fetches[id], e), x) <= Weight(s, x)
    ensures x == id ==> x in s.steps && Weight(ApplyFetch(s, id, s.fetches[id], e), x) < Weight(s, x)
  {
    hide LikelyHolder;
  }

  lemma RouteWeightDrops(dist: Metric, s: State, id: StepId, e: Event, x: StepId)
    requires StepOk(dist, s, x) && id in s.routes && RouteTakes(s.routes[id], e)
    ensures Weight(ApplyRoute(s, id, s.routes[id], e), x) <= Weight(s, x)
    ensures x == id ==> x in s.steps && Weight(ApplyRoute(s, id, s.routes[id], e), x) < Weight(s, x)
  {
    hide LikelyHolder;
  }

  lemma FetchEndsWeight(dist: Metric, s: State, id: StepId, x: StepId)
    requires StepOk(dist, s, x) && id in s.fetches && s.fetches[id].FetchDone?
    ensures Weight(ApplyFetchEnds(s, id), x) <= Weight(s, x)
    ensures x == id ==> x in s.steps && Weight(ApplyFetchEnds(s, id), x) < Weight(s, x)
  {
    hide LikelyHolder;
  }

  lemma RouteEndsWeight(dist: Metric, s: State, id: StepId, x: StepId)
    requires StepOk(dist, s, x) && id in s.routes && s.routes[id].RouteDone?
    ensures Weight(ApplyRouteEnds(s, id), x) <= Weight(s, x)
    ensures x == id ==> x in s.steps && Weight(ApplyRouteEnds(s, id), x) < Weight(s, x)
  {
    hide LikelyHolder;
  }

  // The passes of the loop

  lemma DrainWork(dist: Metric, s: State)
    requires StepsOk(dist, s) && s.phase.Draining?
    ensures Work(ApplyDrain(s)) < Work(s)
  {
    hide StepOk, Weight;
    var t := ApplyDrain(s);
    forall x: StepId
      ensures Weight(t, x) <= Weight(s, x)
      ensures x in s.inbox ==> x in s.steps && Weight(t, x) < Weight(s, x)
    {
      DrainWeight(dist, s, x);
    }
    if s.inbox != {} {
      var id :| id in s.inbox;
      assert Moved(s, t);
    } else {
      assert t.queued == s.queued;
    }
    LessWork(s, t);
  }

  lemma ReleaseWork(dist: Metric, s: State, id: StepId)
    requires StepsOk(dist, s) && id in s.queued
    ensures Work(ApplyRelease(dist, s, id)) < Work(s)
  {
    hide StepOk, Weight, Stale;
    var t := ApplyRelease(dist, s, id);
    forall x: StepId ensures Weight(t, x) <= Weight(s, x) && (x == id ==> x in s.steps && Weight(t, x) < Weight(s, x)) {
      ReleaseWeight(dist, s, id, x);
    }
    assert id in s.steps && Weight(t, id) < Weight(s, id);
    LessWork(s, t);
  }

  lemma ReleaseNoneWork(dist: Metric, s: State)
    requires StepsOk(dist, s) && Enabled(dist, s, ReleaseNone)
    ensures Work(Apply(dist, s, ReleaseNone)) < Work(s)
  {
    hide StepOk, Weight, LikelyHolder, DropStale;
    var t := Apply(dist, s, ReleaseNone);
    var dropped := DropStale(dist, s);
    assert dropped.steps == s.steps by { DropKeepsSteps(dist, s); }
    forall x: StepId
      ensures Weight(t, x) <= Weight(s, x)
      ensures MayRelease(s) && Stale(s, x, dist) ==> x in s.steps && Weight(t, x) < Weight(s, x)
    {
      DropWeight(dist, s, x);
      PhaseWeight(dropped, x);
      PhaseWeight(s, x);
    }
    if ReleaseDue(s) {
      var id :| id in s.queued;
      assert Stale(s, id, dist) && Weight(t, id) < Weight(s, id);
    }
    LessWork(s, t);
  }

  lemma RouteRestWork(dist: Metric, s: State)
    requires StepsOk(dist, s) && s.phase.Routing?
    ensures Work(ApplyRouteRest(s)) < Work(s)
  {
    hide StepOk, Weight;
    var t := ApplyRouteRest(s);
    forall x: StepId ensures Weight(t, x) <= Weight(s, x) { RouteRestWeight(dist, s, x); }
    LessWork(s, t);
  }

  // The requests

  lemma FetchEventWork(dist: Metric, s: State, id: StepId, e: Event)
    requires StepsOk(dist, s) && id in s.fetches && FetchTakes(s.fetches[id], e)
    ensures Work(ApplyFetch(s, id, s.fetches[id], e)) < Work(s)
  {
    hide StepOk, Weight, FetchTakes, FetchEffect;
    var t := ApplyFetch(s, id, s.fetches[id], e);
    forall x: StepId ensures Weight(t, x) <= Weight(s, x) && (x == id ==> x in s.steps && Weight(t, x) < Weight(s, x)) {
      FetchWeightDrops(dist, s, id, e, x);
    }
    assert id in s.steps && Weight(t, id) < Weight(s, id);
    LessWork(s, t);
  }

  lemma RouteEventWork(dist: Metric, s: State, id: StepId, e: Event)
    requires StepsOk(dist, s) && id in s.routes && RouteTakes(s.routes[id], e)
    ensures Work(ApplyRoute(s, id, s.routes[id], e)) < Work(s)
  {
    hide StepOk, Weight, RouteTakes, RouteEffect;
    var t := ApplyRoute(s, id, s.routes[id], e);
    forall x: StepId ensures Weight(t, x) <= Weight(s, x) && (x == id ==> x in s.steps && Weight(t, x) < Weight(s, x)) {
      RouteWeightDrops(dist, s, id, e, x);
    }
    assert id in s.steps && Weight(t, id) < Weight(s, id);
    LessWork(s, t);
  }

  lemma FetchEndsWork(dist: Metric, s: State, id: StepId)
    requires StepsOk(dist, s) && id in s.fetches && s.fetches[id].FetchDone?
    ensures Work(ApplyFetchEnds(s, id)) < Work(s)
  {
    hide StepOk, Weight;
    var t := ApplyFetchEnds(s, id);
    forall x: StepId ensures Weight(t, x) <= Weight(s, x) && (x == id ==> x in s.steps && Weight(t, x) < Weight(s, x)) {
      FetchEndsWeight(dist, s, id, x);
    }
    assert id in s.steps && Weight(t, id) < Weight(s, id);
    LessWork(s, t);
  }

  lemma RouteEndsWork(dist: Metric, s: State, id: StepId)
    requires StepsOk(dist, s) && id in s.routes && s.routes[id].RouteDone?
    ensures Work(ApplyRouteEnds(s, id)) < Work(s)
  {
    hide StepOk, Weight;
    var t := ApplyRouteEnds(s, id);
    forall x: StepId ensures Weight(t, x) <= Weight(s, x) && (x == id ==> x in s.steps && Weight(t, x) < Weight(s, x)) {
      RouteEndsWeight(dist, s, id, x);
    }
    assert id in s.steps && Weight(t, id) < Weight(s, id);
    LessWork(s, t);
  }

  /** An event that only starts the next pass. */
  lemma PassWork(s: State, t: State)
    requires t == s.(phase := t.phase, now := t.now)
    ensures Passes(t) < Passes(s) ==> Work(t) < Work(s)
    ensures Passes(t) <= Passes(s) ==> Work(t) <= Work(s)
  {
    LoadShrinks(s, t);
  }

  lemma TimeWork(s: State, elapsed: nat)
    ensures Work(s.(now := s.now + elapsed)) <= Work(s)
  {
    PassWork(s, s.(now := s.now + elapsed));
  }

  lemma HedgeWork(dist: Metric, s: State)
    requires Enabled(dist, s, HedgeFires)
    ensures Work(s.(phase := Draining)) < Work(s)
  {
    PassWork(s, s.(phase := Draining));
  }

  lemma ReceiveWork(dist: Metric, s: State)
    requires Enabled(dist, s, StepReceived)
    ensures Work(s.(phase := Draining)) < Work(s)
  {
    PassWork(s, s.(phase := Draining));
  }

  lemma WorkDrops(dist: Metric, s: State, l: Label)
    requires StepsOk(dist, s) && !s.walking && Enabled(dist, s, l)
    ensures if l.Tick? then Work(Apply(dist, s, l)) <= Work(s) else Work(Apply(dist, s, l)) < Work(s)
  {
    hide StepsOk, Work, Stale, ApplyDrain, ApplyRelease, ApplyRouteRest, ApplyFetch, ApplyRoute, ApplyFetchEnds,
         ApplyRouteEnds;
    match l
    case Tick(elapsed) => TimeWork(s, elapsed);
    case Drain => DrainWork(dist, s);
    case Release(id) => ReleaseWork(dist, s, id);
    case ReleaseNone => ReleaseNoneWork(dist, s);
    case RouteRest => RouteRestWork(dist, s);
    case StepReceived => ReceiveWork(dist, s);
    case FetchEvent(id, e) => FetchEventWork(dist, s, id, e);
    case FetchEnds(id) => FetchEndsWork(dist, s, id);
    case RouteEvent(id, e) => RouteEventWork(dist, s, id, e);
    case RouteEnds(id) => RouteEndsWork(dist, s, id);
    case HedgeFires => HedgeWork(dist, s);
  }

  /** Once the lookup has ended, every event but the passing of time leaves less
      work, and time does not add any; so the loop ends after finitely many. */
  lemma StepProgress(dist: Metric, s: State, l: Label)
    requires Reachable(dist, s) && !s.walking && Enabled(dist, s, l)
    ensures !l.Tick? ==> Work(Apply(dist, s, l)) < Work(s)
    ensures Work(Apply(dist, s, l)) <= Work(s) && !Apply(dist, s, l).walking
  {
    hide Enabled, Apply, Work, StepsOk, Reachable;
    ReachableInv(dist, s);
    StepFrame(dist, s, l);
    WorkDrops(dist, s, l);
  }
}
