/** What holds in every run of a Kademlia read. */
module KadSafety {
  import opened Prelude
  import opened ReadOrder
  import opened KadRead
  import opened KadTrace

  /** At the end of a read that found nothing, no peer had sent the chunk, every
      step was answered, and every peer that answered the lookup was asked for the
      chunk or has a close group of peers heard of nearer it. */
  lemma NotFoundIsThorough(dist: Metric, seeds: set<Peer>, labels: seq<Label>, id: StepId)
    requires After(dist, seeds, labels).Some? && After(dist, seeds, labels).value.phase == Ended(NotFound)
    requires id in Watch(dist, seeds, labels).peers
    ensures var s, x := After(dist, seeds, labels).value, Watch(dist, seeds, labels);
      && x.chunks == {} && x.fatal == {}
      && id in s.replies && (s.replies[id].Closer? <==> id in x.closer)
      && (id in x.closer ==>
            id in x.asked || |NearerThan(x.known, x.peers[id], dist)| >= CLOSE_GROUP_SIZE)
  {
    var s, x := After(dist, seeds, labels).value, Watch(dist, seeds, labels);
    RunKeeps(dist, seeds, labels);
    RunAgrees(dist, seeds, labels);
    NothingCame(s, x);
    assert StepOk(dist, s, id) && StepAgrees(s, x, id);
  }

  /** No step makes a peer judged unlikely, or skipped while it waited, likely. */
  lemma UnlikelyStaysUnlikely(dist: Metric, s: State, l: Label, peer: Peer)
    requires Enabled(dist, s, l) && !LikelyHolder(s.known, peer, dist)
    ensures !LikelyHolder(Apply(dist, s, l).known, peer, dist)
  {
    hide Apply, Enabled, LikelyHolder;
    StepFrame(dist, s, l);
    var t := Apply(dist, s, l);
    if LikelyHolder(t.known, peer, dist) { LikelyHolderAntitone(s.known, t.known, peer, dist); }
  }

  /** Only a step whose peer was a likely holder waits to be, is or was asked. */
  predicate OnlyLikely(s: State, id: StepId) {
    id in s.queued || id in s.fetches || id in s.requests || (id in s.routes && s.routes[id].waits) ==>
      LikelyStep(s, id)
  }

  lemma DrainOnlyLikely(s: State, j: StepId)
    requires OnlyLikely(s, j)
    ensures OnlyLikely(ApplyDrain(s), j)
  {
  }

  lemma DropOnlyLikely(dist: Metric, s: State, j: StepId)
    requires OnlyLikely(s, j)
    ensures OnlyLikely(DropStale(dist, s), j)
  {
    hide StaleSet;
  }

  lemma RouteRestOnlyLikely(s: State, j: StepId)
    requires OnlyLikely(s, j)
    ensures OnlyLikely(ApplyRouteRest(s), j)
  {
  }

  lemma ReleaseOnlyLikely(dist: Metric, s: State, id: StepId, j: StepId)
    requires id in s.queued && OnlyLikely(s, id) && OnlyLikely(s, j)
    ensures OnlyLikely(ApplyRelease(dist, s, id), j)
  {
    hide StaleSet;
  }

  lemma EventOnlyLikely(s: State, id: StepId, e: Event, j: StepId)
    requires OnlyLikely(s, id) && OnlyLikely(s, j)
    ensures id in s.fetches ==> OnlyLikely(ApplyFetch(s, id, s.fetches[id], e), j)
    ensures id in s.routes && RouteTakes(s.routes[id], e) ==> OnlyLikely(ApplyRoute(s, id, s.routes[id], e), j)
  {
    hide FetchEffect;
  }

  lemma EndOnlyLikely(s: State, id: StepId, j: StepId)
    requires OnlyLikely(s, id) && OnlyLikely(s, j)
    ensures id in s.fetches && s.fetches[id].FetchDone? ==> OnlyLikely(ApplyFetchEnds(s, id), j)
    ensures id in s.routes && s.routes[id].RouteDone? ==> OnlyLikely(ApplyRouteEnds(s, id), j)
  {
  }

  lemma SendOnlyLikely(dist: Metric, s: State, batch: map<StepId, Peer>, j: StepId)
    requires OnlyLikely(s, j) && forall id :: id in batch ==> id !in s.steps
    ensures OnlyLikely(ApplySendBatch(dist, s, batch), j)
  {
    hide LikelyHolder;
  }

  lemma SameOnlyLikely(s: State, t: State, j: StepId)
    requires OnlyLikely(s, j) && t.steps == s.steps && t.queued == s.queued && t.fetches == s.fetches
    requires t.requests == s.requests && t.routes == s.routes
    ensures OnlyLikely(t, j)
  {
  }

  lemma ReleaseNoneOnlyLikely(dist: Metric, s: State, j: StepId)
    requires OnlyLikely(s, j)
    ensures OnlyLikely((if MayRelease(s) then DropStale(dist, s) else s).(phase := Routing), j)
  {
    DropOnlyLikely(dist, s, j);
    hide OnlyLikely, DropStale, MayRelease;
    var t := if MayRelease(s) then DropStale(dist, s) else s;
    SameOnlyLikely(t, t.(phase := Routing), j);
  }

  /** The requests' labels. */
  predicate OfRequest(l: Label) {
    l.FetchEvent? || l.RouteEvent? || l.FetchEnds? || l.RouteEnds?
  }

  lemma RequestStepOnlyLikely(dist: Metric, s: State, l: Label, j: StepId)
    requires Enabled(dist, s, l) && OfRequest(l) && OnlyLikely(s, l.id) && OnlyLikely(s, j)
    ensures OnlyLikely(Apply(dist, s, l), j)
  {
    hide OnlyLikely, ApplyFetch, ApplyRoute, ApplyFetchEnds, ApplyRouteEnds, FetchTakes, RouteTakes;
    if l.FetchEvent? || l.RouteEvent? { EventOnlyLikely(s, l.id, l.event, j); } else { EndOnlyLikely(s, l.id, j); }
  }

  lemma StepOnlyLikely(dist: Metric, s: State, l: Label, j: StepId)
    requires Enabled(dist, s, l) && OnlyLikely(s, j) && (l.Release? || OfRequest(l) ==> OnlyLikely(s, l.id))
    ensures OnlyLikely(Apply(dist, s, l), j)
  {
    hide OnlyLikely, ApplyDrain, DropStale, ApplyRouteRest, ApplyRelease, ApplySendBatch, MayRelease, Stale,
         HedgeDeadline, ApplyFetch, ApplyRoute, ApplyFetchEnds, ApplyRouteEnds, FetchTakes, RouteTakes;
    match l
    case SendBatch(batch) => SendOnlyLikely(dist, s, batch, j);
    case Drain => DrainOnlyLikely(s, j);
    case RouteRest => RouteRestOnlyLikely(s, j);
    case Release(id) => ReleaseOnlyLikely(dist, s, id, j);
    case ReleaseNone => ReleaseNoneOnlyLikely(dist, s, j);
    case FetchEvent(_, _) => RequestStepOnlyLikely(dist, s, l, j);
    case RouteEvent(_, _) => RequestStepOnlyLikely(dist, s, l, j);
    case FetchEnds(_) => RequestStepOnlyLikely(dist, s, l, j);
    case RouteEnds(_) => RequestStepOnlyLikely(dist, s, l, j);
    case _ => SameOnlyLikely(s, Apply(dist, s, l), j);
  }

  lemma {:induction false} RunOnlyLikely(dist: Metric, seeds: set<Peer>, labels: seq<Label>)
    requires After(dist, seeds, labels).Some?
    ensures forall id: StepId :: OnlyLikely(After(dist, seeds, labels).value, id)
  {
    hide Apply, Enabled;
    if labels != [] {
      hide OnlyLikely;
      var last := |labels| - 1;
      RunOnlyLikely(dist, seeds, labels[..last]);
      forall id: StepId ensures OnlyLikely(After(dist, seeds, labels).value, id) {
        StepOnlyLikely(dist, After(dist, seeds, labels[..last]).value, labels[last], id);
      }
    }
  }

  /** A peer that had a close group of known peers nearer the chunk when its step was
      sent is not asked for the chunk. */
  lemma UnlikelyNeverAsked(dist: Metric, seeds: set<Peer>, labels: seq<Label>, id: StepId)
    requires After(dist, seeds, labels).Some? && id in Watch(dist, seeds, labels).asked
    ensures id in Watch(dist, seeds, labels).likely
  {
    RunAgrees(dist, seeds, labels);
    RunOnlyLikely(dist, seeds, labels);
    assert OnlyLikely(After(dist, seeds, labels).value, id);
  }

  /** Where a run goes on to from `s`. */
  function RunFrom(dist: Metric, s: State, more: seq<Label>): Option<State>
    decreases |more|
  {
    if more == [] then Some(s)
    else if Enabled(dist, s, more[0]) then RunFrom(dist, Apply(dist, s, more[0]), more[1..])
    else None
  }

  /** So once unlikely, a peer is unlikely however the run goes on. */
  lemma {:induction false} UnlikelyForever(dist: Metric, s: State, more: seq<Label>, peer: Peer)
    requires RunFrom(dist, s, more).Some? && !LikelyHolder(s.known, peer, dist)
    ensures !LikelyHolder(RunFrom(dist, s, more).value.known, peer, dist)
    decreases |more|
  {
    if more != [] {
      hide Apply, Enabled, LikelyHolder;
      UnlikelyStaysUnlikely(dist, s, more[0], peer);
      UnlikelyForever(dist, Apply(dist, s, more[0]), more[1..], peer);
    }
  }

  /** No step is replied to twice or asked for the chunk twice. */
  lemma OneReplyOneRequest(dist: Metric, s: State)
    requires Reachable(dist, s)
    ensures s.replyCount == |s.replies| && s.requestCount == |s.requests|
    ensures s.replies.Keys <= s.steps.Keys && s.requests <= s.steps.Keys
  {
    ReachableInv(dist, s);
    forall id | id in s.replies || id in s.requests
      ensures id in s.steps
    {
      assert StepOk(dist, s, id);
    }
  }

  /** The gate's count is the number of running fetches, never more than two. */
  lemma GateCounts(dist: Metric, s: State)
    requires Reachable(dist, s)
    ensures s.inFlight == |s.fetches| <= 2
  {
    ReachableInv(dist, s);
  }

  /** A second fetch starts only beside one that was released the hedge delay ago. */
  lemma HedgeAfterDelay(dist: Metric, seeds: set<Peer>, labels: seq<Label>, id: StepId, other: StepId)
    requires After(dist, seeds, labels).Some?
    requires var s := After(dist, seeds, labels).value; Enabled(dist, s, Release(id)) && other in s.fetches
    ensures var x := Watch(dist, seeds, labels);
      other in x.released && x.clock >= x.released[other] + HOLDER_HEDGE_DELAY
    ensures |After(dist, seeds, labels).value.fetches| == 1
  {
    RunKeeps(dist, seeds, labels);
    RunAgrees(dist, seeds, labels);
    Hedges(dist, After(dist, seeds, labels).value, id, other);
  }

  lemma Hedges(dist: Metric, s: State, id: StepId, other: StepId)
    requires GateOk(s) && Enabled(dist, s, Release(id)) && other in s.fetches
    ensures other in s.startedAt && s.now >= s.startedAt[other] + HOLDER_HEDGE_DELAY
    ensures |s.fetches| == 1
  {
    hide Stale;
    assert |s.fetches.Keys| == |s.fetches|;
  }

  /** Every pass answers the waiting steps: none is left queued unanswered, and
      whoever still waits waits on a running fetch. */
  lemma PassLeavesNoneWaiting(dist: Metric, s: State)
    requires Reachable(dist, s) && s.phase.Selecting?
    ensures forall id :: id in s.queued ==> s.queued[id]
    ensures s.queued != map[] ==> s.fetches != map[]
  {
    ReachableInv(dist, s);
  }

  /** Some event of the peer's would be taken by the step's own request, or the
      loop can receive it. */
  ghost predicate CanBeAnswered(dist: Metric, s: State, id: StepId) {
    || (id in s.inbox && Enabled(dist, s, StepReceived))
    || (id in s.fetches && exists e :: Enabled(dist, s, FetchEvent(id, e)))
    || (id in s.routes && exists e :: Enabled(dist, s, RouteEvent(id, e)))
  }

  /** An event that a request under way takes. */
  function FetchNext(f: Fetch): Event {
    match f
    case Preparing => Prepared(true)
    case GetOrCloser => StepFound
    case AwaitFind(_) => FindFailed
    case _ => GetOk(true)
  }

  function RouteNext(r: Route): Event {
    if r.RoutePreparing? then Prepared(true) else FindFailed
  }

  lemma AnswerComes(dist: Metric, s: State, id: StepId)
    requires Inv(dist, s) && s.phase.Selecting? && id in s.steps && id !in s.replies
    ensures CanBeAnswered(dist, s, id)
  {
    assert StepOk(dist, s, id);
    hide StepsOk, GateOk, CountsOk, LikelyHolder;
    if id in s.fetches {
      assert Enabled(dist, s, FetchEvent(id, FetchNext(s.fetches[id])));
    } else if id in s.routes {
      assert Enabled(dist, s, RouteEvent(id, RouteNext(s.routes[id])));
    }
  }

  /** No lookup step is left without the reply the lookup waits for: while the loop
      selects, whether the lookup walks or not, every step without a reply is in the
      inbox or has a request under way that takes an event. And whatever its phase,
      a loop whose lookup has ended has something to do other than pass the time. */
  lemma NeverStuck(dist: Metric, s: State)
    requires Reachable(dist, s) && !s.phase.Ended?
    ensures s.phase.Selecting? ==> forall id :: id in s.steps && id !in s.replies ==> CanBeAnswered(dist, s, id)
    ensures !s.walking || !s.phase.Selecting? ==> exists l: Label :: !l.Tick? && Enabled(dist, s, l)
  {
    ReachableInv(dist, s);
    hide CanBeAnswered, Enabled;
    if s.phase.Selecting? {
      forall id | id in s.steps && id !in s.replies
        ensures CanBeAnswered(dist, s, id)
      {
        AnswerComes(dist, s, id);
      }
    }
    if !s.walking || !s.phase.Selecting? {
      var l := NextLabel(dist, s);
    }
  }

  lemma NextLabel(dist: Metric, s: State) returns (l: Label)
    requires Inv(dist, s) && !s.phase.Ended? && (!s.walking || !s.phase.Selecting?)
    ensures !l.Tick? && Enabled(dist, s, l)
  {
    hide StepsOk, CountsOk, Stale;
    match s.phase
    case Draining => l := Drain;
    case Releasing =>
      if id :| id in s.queued && !Stale(s, id, dist) && MayRelease(s) { l := Release(id); } else { l := ReleaseNone; }
    case Routing => l := RouteRest;
    case Selecting =>
      if s.inbox != {} {
        l := StepReceived;
      } else if id :| id in s.fetches {
        l := if s.fetches[id].FetchDone? then FetchEnds(id) else FetchEvent(id, FetchNext(s.fetches[id]));
      } else {
        assert s.fetches == map[] && |s.fetches| == 0;
        var id :| id in s.routes;
        l := if s.routes[id].RouteDone? then RouteEnds(id) else RouteEvent(id, RouteNext(s.routes[id]));
      }
  }

  // One request from start to end

  /** A request after some events, with the last reply it sent the lookup and how
      many replies and chunk requests there were. */
  datatype Sent<T> = Sent(at: T, reply: Option<Reply>, replies: nat, asks: nat)

  function Add<T>(x: Sent<T>, e: Effect<T>): Sent<T> {
    Sent(e.next, if e.reply.Some? then e.reply else x.reply, x.replies + One(e.reply.Some?), x.asks + One(e.asks))
  }

  function FetchRun(events: seq<Event>): Option<Sent<Fetch>> {
    if events == [] then Some(Sent(Preparing, None, 0, 0))
    else
      var last := |events| - 1;
      match FetchRun(events[..last])
      case None => None
      case Some(x) => if FetchTakes(x.at, events[last]) then Some(Add(x, FetchEffect(x.at, events[last]))) else None
  }

  function RouteRun(waits: bool, events: seq<Event>): Option<Sent<Route>> {
    if events == [] then Some(Sent(RoutePreparing(waits), None, 0, 0))
    else
      var last := |events| - 1;
      match RouteRun(waits, events[..last])
      case None => None
      case Some(x) => if RouteTakes(x.at, events[last]) then Some(Add(x, RouteEffect(x.at, events[last]))) else None
  }

  /** The events a fetch has before it at most. */
  function FetchLeft(f: Fetch): nat {
    match f
    case Preparing => 3
    case Both => 2
    case FetchDone(_) => 0
    case _ => 1
  }

  lemma FetchLeftDrops(f: Fetch, e: Event)
    requires FetchTakes(f, e)
    ensures FetchLeft(FetchEffect(f, e).next) < FetchLeft(f)
  {
  }

  ghost predicate FetchSent(x: Sent<Fetch>, n: nat) {
    && x.asks <= 1 && x.replies == One(x.reply.Some?)
    && FetchOk(x.at, x.reply, x.asks == 1)
    && n + FetchLeft(x.at) <= 3
  }

  lemma {:induction false} FetchSends(events: seq<Event>)
    requires FetchRun(events).Some?
    ensures FetchSent(FetchRun(events).value, |events|)
  {
    hide FetchTakes, FetchEffect, FetchLeft, FetchOk;
    if events == [] {
      FetchBegins();
    } else {
      var last := |events| - 1;
      FetchSends(events[..last]);
      var x := FetchRun(events[..last]).value;
      FetchEffectOk(x.at, events[last], x.reply, x.asks == 1);
      FetchLeftDrops(x.at, events[last]);
    }
  }

  lemma FetchBegins()
    ensures FetchSent(Sent(Preparing, None, 0, 0), 0)
  {
  }

  /** Whatever its peer does and in whatever order, the fetch of an unanswered step
      ends within three events, having replied to the lookup exactly once, and asked
      for the chunk exactly once unless the peer failed it before that. */
  lemma FetchRepliesOnce(events: seq<Event>)
    requires FetchRun(events).Some?
    ensures var x := FetchRun(events).value;
      && |events| <= 3 && (|events| == 3 ==> x.at.FetchDone?)
      && x.replies <= 1 && x.asks <= 1
      && (x.at.FetchDone? ==> x.replies == 1 && (x.asks == 1 || x.reply == Some(Failed)))
  {
    FetchSends(events);
  }

  lemma RouteEffectStep(r: Route, e: Event)
    requires RouteTakes(r, e)
    ensures var x := RouteEffect(r, e);
      && !r.RouteDone? && !x.next.RoutePreparing? && (x.next.RouteFinding? ==> r.RoutePreparing?)
      && !x.asks && (x.reply.Some? <==> x.next.RouteDone?)
  {
  }

  /** A route ends within two events, having replied exactly once and never asked
      for the chunk. */
  lemma {:induction false} RouteRepliesOnce(waits: bool, events: seq<Event>)
    requires RouteRun(waits, events).Some?
    ensures var x := RouteRun(waits, events).value;
      && |events| <= 2 && (|events| == 2 ==> x.at.RouteDone?)
      && x.asks == 0 && x.replies == One(x.at.RouteDone?)
      && (x.at.RoutePreparing? <==> events == []) && (x.at.RouteFinding? ==> |events| == 1)
  {
    hide RouteTakes, RouteEffect;
    if events != [] {
      var last := |events| - 1;
      RouteRepliesOnce(waits, events[..last]);
      RouteEffectStep(RouteRun(waits, events[..last]).value.at, events[last]);
    }
  }
}
