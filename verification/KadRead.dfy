/** Chunk reads through a client-driven Kademlia lookup
    (`client_engine/kad_read.rs`). The lookup and the network are the
    environment: they send steps, answer requests and end the walk in any order.
    A run is a sequence of labels. Every queried peer is one step with its own
    identifier; `replies` and `requests` record what the lookup and the peer saw
    of it. */
module KadRead {
  import opened Prelude
  import opened Sorting
  import opened ReadOrder

  type StepId = nat

  /** Milliseconds. */
  const HOLDER_HEDGE_DELAY: nat := 500
  const MAX_HOLDER_REQUESTS: nat := 2
  const MIN_KNOWN_FOR_HOLDERS: nat := 2 * CLOSE_GROUP_SIZE

  /** Until the read knows enough peers, everyone counts; then only peers with
      fewer than a close group of known peers nearer the chunk do. */
  predicate LikelyHolder(known: set<Peer>, peer: Peer, dist: Metric) {
    |known| < MIN_KNOWN_FOR_HOLDERS || MayHold(known, peer, dist)
  }

  /** Learning more peers can only turn a likely holder into an unlikely one. */
  lemma LikelyHolderAntitone(known: set<Peer>, more: set<Peer>, peer: Peer, dist: Metric)
    requires known <= more && LikelyHolder(more, peer, dist)
    ensures LikelyHolder(known, peer, dist)
  {
    SubsetCardinality(known, more);
    if |more| >= MIN_KNOWN_FOR_HOLDERS {
      MayHoldAntitone(known, more, peer, dist);
    }
  }

  // Requests under way

  datatype FetchResult = Chunk | Nothing | Fatal

  /** `fetch` and `serve_step`, at their waits. `Both` is a peer that predates
      get-or-closer, with FIND_NODE and GET out; `Replied` and `AwaitFind` are
      the two orders in which they come back. */
  datatype Fetch =
    | Preparing
    | GetOrCloser
    | Both
    | Replied
    | AwaitFind(fetched: FetchResult)
    | Getting
    | FetchDone(result: FetchResult)

  /** `route`; `waits` says whether the peer is to be asked for the chunk later. */
  datatype Route =
    | RoutePreparing(waits: bool)
    | RouteFinding(waits: bool)
    | RouteDone(waits: bool)

  datatype Reply = Closer | Answered | Failed

  datatype Step = Step(peer: Peer, likely: bool)

  datatype Outcome = Found | NotFound | Error

  datatype Phase = Draining | Releasing | Routing | Selecting | Ended(outcome: Outcome)

  datatype State = State(
    now: nat,
    phase: Phase,
    walking: bool,
    known: set<Peer>,
    /** Sent by the lookup and not yet received. */
    inbox: set<StepId>,
    /** The gate: waiting holders, true once they answered the lookup. */
    queued: map<StepId, bool>,
    inFlight: nat,
    newestStart: Option<nat>,
    fetches: map<StepId, Fetch>,
    routes: map<StepId, Route>,
    // What happened so far; the read looks at none of these.
    steps: map<StepId, Step>,
    retired: set<StepId>,
    startedAt: map<StepId, nat>,
    replies: map<StepId, Reply>,
    replyCount: nat,
    requests: set<StepId>,
    requestCount: nat)

  function Init(seeds: set<Peer>): State {
    State(0, Draining, true, seeds, {}, map[], 0, None, map[], map[], map[], {}, map[], map[], 0, {}, 0)
  }

  /** What a peer or the connection to it does. */
  datatype Event =
    | Prepared(capable: bool)
    | PrepareFailed(retryable: bool)
    | StepFound
    | StepCloser(nodes: set<Peer>)
    | StepFailed(retryable: bool)
    | FindOk(nodes: set<Peer>)
    | FindFailed
    | GetOk(found: bool)
    | GetFailed(retryable: bool)

  datatype Label =
    | Tick(elapsed: nat)
    | SendBatch(batch: map<StepId, Peer>)
    | Drain
    | Release(id: StepId)
    | ReleaseNone
    | RouteRest
    | StepReceived
    | FetchEvent(id: StepId, event: Event)
    | FetchEnds(id: StepId)
    | RouteEvent(id: StepId, event: Event)
    | RouteEnds(id: StepId)
    | HedgeFires
    | WalkEnds

  function One(b: bool): nat { if b then 1 else 0 }

  // The gate's queries

  predicate HedgeDue(inFlight: nat, newestStart: Option<nat>, now: nat) {
    inFlight < MAX_HOLDER_REQUESTS && newestStart.Some? && now >= newestStart.value + HOLDER_HEDGE_DELAY
  }

  predicate MayRelease(s: State) {
    s.inFlight == 0 || HedgeDue(s.inFlight, s.newestStart, s.now)
  }

  function HedgeDeadline(s: State): Option<nat> {
    if s.queued == map[] || s.inFlight == 0 || s.inFlight >= MAX_HOLDER_REQUESTS then None
    else if s.newestStart.None? then None else Some(s.newestStart.value + HOLDER_HEDGE_DELAY)
  }

  /** A waiting holder that answered and is no longer likely is dropped. */
  predicate Stale(s: State, id: StepId, dist: Metric) {
    id in s.queued && s.queued[id] && id in s.steps && !LikelyHolder(s.known, s.steps[id].peer, dist)
  }

  function StaleSet(s: State, dist: Metric): set<StepId> {
    set id | id in s.queued && Stale(s, id, dist)
  }

  // Steps

  predicate FetchTakes(f: Fetch, e: Event) {
    match f
    case Preparing => e.Prepared? || e.PrepareFailed?
    case GetOrCloser => e.StepFound? || e.StepCloser? || e.StepFailed?
    case Both => e.FindOk? || e.FindFailed? || e.GetOk? || e.GetFailed?
    case Replied => e.GetOk? || e.GetFailed?
    case AwaitFind(_) => e.FindOk? || e.FindFailed?
    case Getting => e.GetOk? || e.GetFailed?
    case FetchDone(_) => false
  }

  predicate RouteTakes(r: Route, e: Event) {
    match r
    case RoutePreparing(_) => e.Prepared? || e.PrepareFailed?
    case RouteFinding(_) => e.FindOk? || e.FindFailed?
    case RouteDone(_) => false
  }

  predicate Enabled(dist: Metric, s: State, l: Label) {
    match l
    case Tick(_) => !s.phase.Ended?
    case SendBatch(batch) => s.phase.Selecting? && s.walking && forall id :: id in batch ==> id !in s.steps
    case Drain => s.phase.Draining?
    case Release(id) => s.phase.Releasing? && MayRelease(s) && id in s.queued && !Stale(s, id, dist)
    case ReleaseNone =>
      s.phase.Releasing? && (MayRelease(s) ==> forall id :: id in s.queued ==> Stale(s, id, dist))
    case RouteRest => s.phase.Routing?
    case StepReceived => s.phase.Selecting? && s.inbox != {}
    case FetchEvent(id, e) => s.phase.Selecting? && id in s.fetches && FetchTakes(s.fetches[id], e)
    case FetchEnds(id) => s.phase.Selecting? && id in s.fetches && s.fetches[id].FetchDone?
    case RouteEvent(id, e) => s.phase.Selecting? && id in s.routes && RouteTakes(s.routes[id], e)
    case RouteEnds(id) => s.phase.Selecting? && id in s.routes && s.routes[id].RouteDone?
    case HedgeFires => s.phase.Selecting? && HedgeDeadline(s).Some? && s.now >= HedgeDeadline(s).value
    case WalkEnds => s.phase.Selecting? && s.walking
  }

  function Verdict(retryable: bool): FetchResult {
    if retryable then Nothing else Fatal
  }

  function GetResult(e: Event): FetchResult {
    match e
    case GetOk(found) => if found then Chunk else Nothing
    case GetFailed(retryable) => Verdict(retryable)
    case _ => Nothing
  }

  /** What one event of a request does: the peers it teaches the read, the reply
      it sends the lookup, and whether the chunk is now asked for. The read
      learns of closer peers before the lookup hears of them. */
  datatype Effect<T> = Effect(next: T, learnt: set<Peer>, reply: Option<Reply>, asks: bool)

  function FindReply(e: Event): Reply {
    if e.FindOk? then Closer else Failed
  }

  function FindNodes(e: Event): set<Peer> {
    if e.FindOk? then e.nodes else {}
  }

  function FetchEffect(f: Fetch, e: Event): Effect<Fetch> {
    match (f, e)
    case (Preparing, Prepared(capable)) => Effect(if capable then GetOrCloser else Both, {}, None, true)
    case (Preparing, PrepareFailed(retryable)) => Effect(FetchDone(Verdict(retryable)), {}, Some(Failed), false)
    case (GetOrCloser, StepFound) => Effect(FetchDone(Chunk), {}, Some(Answered), false)
    case (GetOrCloser, StepCloser(nodes)) => Effect(FetchDone(Nothing), nodes, Some(Closer), false)
    case (GetOrCloser, StepFailed(retryable)) => Effect(FetchDone(Verdict(retryable)), {}, Some(Failed), false)
    case (Both, GetOk(true)) => Effect(FetchDone(Chunk), {}, Some(Answered), false)
    case (Both, GetOk(false)) => Effect(AwaitFind(Nothing), {}, None, false)
    case (Both, GetFailed(retryable)) => Effect(AwaitFind(Verdict(retryable)), {}, None, false)
    case (Both, _) => Effect(Replied, FindNodes(e), Some(FindReply(e)), false)
    case (AwaitFind(fetched), _) => Effect(FetchDone(fetched), FindNodes(e), Some(FindReply(e)), false)
    case _ => Effect(FetchDone(GetResult(e)), {}, None, false)
  }

  function RouteEffect(r: Route, e: Event): Effect<Route> {
    match (r, e)
    case (RoutePreparing(waits), Prepared(_)) => Effect(RouteFinding(waits), {}, None, false)
    case (RouteFinding(waits), FindOk(nodes)) => Effect(RouteDone(waits), nodes, Some(Closer), false)
    case _ => Effect(RouteDone(false), {}, Some(Failed), false)
  }

  function Observe<T>(s: State, id: StepId, x: Effect<T>): State {
    s.(known := s.known + x.learnt,
       replies := if x.reply.Some? then s.replies[id := x.reply.value] else s.replies,
       replyCount := s.replyCount + One(x.reply.Some?),
       requests := if x.asks then s.requests + {id} else s.requests,
       requestCount := s.requestCount + One(x.asks))
  }

  function ApplyFetch(s: State, id: StepId, f: Fetch, e: Event): State {
    var x := FetchEffect(f, e);
    Observe(s, id, x).(fetches := s.fetches[id := x.next])
  }

  function ApplyRoute(s: State, id: StepId, r: Route, e: Event): State {
    var x := RouteEffect(r, e);
    Observe(s, id, x).(routes := s.routes[id := x.next])
  }

  /** The lookup learns of its batch first, then judges each peer of it. */
  function ApplySendBatch(dist: Metric, s: State, batch: map<StepId, Peer>): State {
    var known := s.known + batch.Values;
    s.(known := known,
       inbox := s.inbox + batch.Keys,
       steps := s.steps + map id | id in batch :: Step(batch[id], LikelyHolder(known, batch[id], dist)))
  }

  predicate LikelyStep(s: State, id: StepId) {
    id in s.steps && s.steps[id].likely
  }

  function ApplyDrain(s: State): State {
    s.(phase := Releasing,
       inbox := {},
       queued := s.queued + map id | id in s.inbox && LikelyStep(s, id) :: false,
       routes := s.routes + map id | id in s.inbox && !LikelyStep(s, id) :: RoutePreparing(false))
  }

  function DropStale(dist: Metric, s: State): State {
    var stale := StaleSet(s, dist);
    s.(queued := s.queued - stale, retired := s.retired + stale)
  }

  function ApplyRelease(dist: Metric, s: State, id: StepId): State
    requires id in s.queued
  {
    var stale, answered := StaleSet(s, dist), s.queued[id];
    s.(queued := s.queued - stale - {id},
       retired := s.retired + stale,
       inFlight := s.inFlight + 1,
       newestStart := Some(s.now),
       startedAt := s.startedAt[id := s.now],
       fetches := s.fetches[id := if answered then Getting else Preparing],
       requests := if answered then s.requests + {id} else s.requests,
       requestCount := s.requestCount + One(answered))
  }

  function ApplyRouteRest(s: State): State {
    var t := s.(queued := map id | id in s.queued && s.queued[id] :: true,
                routes := s.routes + map id | id in s.queued && !s.queued[id] :: RoutePreparing(true));
    if !t.walking && t.fetches == map[] && t.routes == map[] && t.queued == map[] then t.(phase := Ended(NotFound))
    else t.(phase := Selecting)
  }

  function ApplyFetchEnds(s: State, id: StepId): State
    requires id in s.fetches && s.fetches[id].FetchDone?
  {
    s.(fetches := s.fetches - {id}, retired := s.retired + {id},
       inFlight := if s.inFlight == 0 then 0 else s.inFlight - 1,
       phase := match s.fetches[id].result
                case Chunk => Ended(Found)
                case Nothing => Draining
                case Fatal => Ended(Error))
  }

  function ApplyRouteEnds(s: State, id: StepId): State
    requires id in s.routes && s.routes[id].RouteDone?
  {
    var t := s.(routes := s.routes - {id}, phase := Draining);
    if s.routes[id].waits then t.(queued := t.queued[id := true]) else t.(retired := t.retired + {id})
  }

  function Apply(dist: Metric, s: State, l: Label): State
    requires Enabled(dist, s, l)
  {
    match l
    case Tick(elapsed) => s.(now := s.now + elapsed)
    case SendBatch(batch) => ApplySendBatch(dist, s, batch)
    case Drain => ApplyDrain(s)
    case Release(id) => ApplyRelease(dist, s, id)
    case ReleaseNone => (if MayRelease(s) then DropStale(dist, s) else s).(phase := Routing)
    case RouteRest => ApplyRouteRest(s)
    case StepReceived => s.(phase := Draining)
    case FetchEvent(id, e) => ApplyFetch(s, id, s.fetches[id], e)
    case FetchEnds(id) => ApplyFetchEnds(s, id)
    case RouteEvent(id, e) => ApplyRoute(s, id, s.routes[id], e)
    case RouteEnds(id) => ApplyRouteEnds(s, id)
    case HedgeFires => s.(phase := Draining)
    case WalkEnds => s.(walking := false, phase := Draining)
  }

  function After(dist: Metric, seeds: set<Peer>, labels: seq<Label>): Option<State> {
    if labels == [] then Some(Init(seeds))
    else
      var last := |labels| - 1;
      match After(dist, seeds, labels[..last])
      case None => None
      case Some(s) => if Enabled(dist, s, labels[last]) then Some(Apply(dist, s, labels[last])) else None
  }

  ghost predicate Reachable(dist: Metric, s: State) {
    exists seeds, labels :: After(dist, seeds, labels) == Some(s)
  }

  // What steps leave alone

  lemma DrainFrame(s: State)
    ensures ApplyDrain(s).known == s.known && ApplyDrain(s).walking == s.walking
  {
  }

  lemma ReleaseFrame(dist: Metric, s: State, id: StepId)
    requires id in s.queued
    ensures ApplyRelease(dist, s, id).known == s.known && ApplyRelease(dist, s, id).walking == s.walking
  {
  }

  lemma DropFrame(dist: Metric, s: State)
    ensures DropStale(dist, s).known == s.known && DropStale(dist, s).walking == s.walking
  {
  }

  lemma RouteRestFrame(s: State)
    ensures ApplyRouteRest(s).known == s.known && ApplyRouteRest(s).walking == s.walking
  {
  }

  lemma RequestFrame(s: State, id: StepId, f: Fetch, r: Route, e: Event)
    ensures s.known <= ApplyFetch(s, id, f, e).known && ApplyFetch(s, id, f, e).walking == s.walking
    ensures s.known <= ApplyRoute(s, id, r, e).known && ApplyRoute(s, id, r, e).walking == s.walking
  {
    hide FetchEffect, RouteEffect;
  }

  lemma EndsFrame(s: State, id: StepId)
    ensures id in s.fetches && s.fetches[id].FetchDone? ==>
              ApplyFetchEnds(s, id).known == s.known && ApplyFetchEnds(s, id).walking == s.walking
    ensures id in s.routes && s.routes[id].RouteDone? ==>
              ApplyRouteEnds(s, id).known == s.known && ApplyRouteEnds(s, id).walking == s.walking
  {
  }

  lemma SendFrame(dist: Metric, s: State, batch: map<StepId, Peer>)
    ensures s.known <= ApplySendBatch(dist, s, batch).known && ApplySendBatch(dist, s, batch).walking == s.walking
  {
  }

  /** No step forgets a peer, and a lookup that has ended stays ended. */
  lemma StepFrame(dist: Metric, s: State, l: Label)
    requires Enabled(dist, s, l)
    ensures s.known <= Apply(dist, s, l).known
    ensures !s.walking ==> !Apply(dist, s, l).walking
  {
    hide Stale, MayRelease, FetchTakes, RouteTakes, HedgeDeadline, DropStale, ApplyDrain, ApplyRelease, ApplyRouteRest,
         ApplyFetch, ApplyRoute, ApplyFetchEnds, ApplyRouteEnds, ApplySendBatch;
    match l
    case SendBatch(batch) => SendFrame(dist, s, batch);
    case Drain => DrainFrame(s);
    case Release(id) => ReleaseFrame(dist, s, id);
    case ReleaseNone => DropFrame(dist, s);
    case RouteRest => RouteRestFrame(s);
    case FetchEvent(id, e) => RequestFrame(s, id, s.fetches[id], RouteDone(false), e);
    case FetchEnds(id) => EndsFrame(s, id);
    case RouteEvent(id, e) => RequestFrame(s, id, Preparing, s.routes[id], e);
    case RouteEnds(id) => EndsFrame(s, id);
    case _ =>
  }

  // What every step keeps

  /** A step is in exactly one place. */
  predicate OnePlace(s: State, id: StepId) {
    One(id in s.inbox) + One(id in s.queued) + One(id in s.fetches) + One(id in s.routes) + One(id in s.retired)
    == One(id in s.steps)
  }

  function ReplyTo(s: State, id: StepId): Option<Reply> {
    if id in s.replies then Some(s.replies[id]) else None
  }

  predicate Untouched(s: State, id: StepId) {
    id !in s.replies && id !in s.requests
  }

  predicate AnsweredLookup(s: State, id: StepId) {
    id in s.replies && s.replies[id].Closer?
  }

  /** What the lookup and the peer saw of a step whose fetch is at `f`. */
  predicate FetchOk(f: Fetch, reply: Option<Reply>, asked: bool) {
    match f
    case Preparing => reply.None? && !asked
    case GetOrCloser => reply.None? && asked
    case Both => reply.None? && asked
    case Replied => reply.Some? && asked
    case AwaitFind(_) => reply.None? && asked
    case Getting => reply == Some(Closer) && asked
    case FetchDone(_) => reply.Some? && (asked || reply.value.Failed?)
  }

  predicate RouteOk(r: Route, reply: Option<Reply>, asked: bool, likely: bool) {
    && !asked
    && match r
       case RouteDone(waits) =>
         if waits then reply == Some(Closer) else reply == Some(Failed) || (reply.Some? && !likely)
       case _ => reply.None? && (!r.waits ==> !likely)
  }

  /** The chunk was asked for, or the peer failed, or a close group is nearer. */
  predicate Served(dist: Metric, s: State, id: StepId) {
    && id in s.replies
    && (id in s.requests || s.replies[id].Failed?
        || (id in s.steps && !LikelyHolder(s.known, s.steps[id].peer, dist)))
  }

  predicate StepOk(dist: Metric, s: State, id: StepId) {
    && OnePlace(s, id)
    && (id !in s.steps ==> Untouched(s, id))
    && (id in s.inbox ==> Untouched(s, id))
    && (id in s.queued ==> if s.queued[id] then AnsweredLookup(s, id) && id !in s.requests else Untouched(s, id))
    && (id in s.fetches ==> FetchOk(s.fetches[id], ReplyTo(s, id), id in s.requests))
    && (id in s.routes ==> RouteOk(s.routes[id], ReplyTo(s, id), id in s.requests, LikelyStep(s, id)))
    && (id in s.retired ==> Served(dist, s, id))
    && (id in s.steps && !s.steps[id].likely ==> !LikelyHolder(s.known, s.steps[id].peer, dist))
  }

  ghost predicate StepsOk(dist: Metric, s: State) {
    forall id: StepId :: StepOk(dist, s, id)
  }

  /** The gate counts its fetches and remembers the newest start. */
  ghost predicate GateOk(s: State) {
    && s.inFlight == |s.fetches| <= MAX_HOLDER_REQUESTS
    && (forall id :: id in s.fetches ==>
          id in s.startedAt && s.newestStart.Some? && s.startedAt[id] <= s.newestStart.value)
    && (s.newestStart.Some? ==> s.newestStart.value <= s.now)
  }

  ghost predicate PhaseOk(s: State) {
    match s.phase
    case Draining => true
    case Releasing => s.inbox == {}
    case Routing => s.inbox == {} && (s.inFlight == 0 ==> s.queued == map[])
    case Selecting =>
      && (forall id :: id in s.queued ==> s.queued[id])
      && (s.queued != map[] ==> s.inFlight > 0)
      && (!s.walking && s.inbox == {} ==> s.inFlight > 0 || s.routes != map[])
    case Ended(NotFound) =>
      !s.walking && s.inbox == {} && s.queued == map[] && s.fetches == map[] && s.routes == map[]
    case _ => true
  }

  /** No reply and no request was ever sent twice. */
  ghost predicate CountsOk(s: State) {
    s.replyCount == |s.replies| && s.requestCount == |s.requests|
  }

  ghost predicate Inv(dist: Metric, s: State) {
    StepsOk(dist, s) && GateOk(s) && PhaseOk(s) && CountsOk(s)
  }

  lemma InitInv(dist: Metric, seeds: set<Peer>)
    ensures Inv(dist, Init(seeds))
  {
  }

  /** Knowing more peers keeps every step served. */
  lemma LearnKeeps(dist: Metric, s: State, nodes: set<Peer>)
    requires StepsOk(dist, s)
    ensures StepsOk(dist, s.(known := s.known + nodes))
  {
    var t := s.(known := s.known + nodes);
    forall id: StepId ensures StepOk(dist, t, id) {
      assert StepOk(dist, s, id);
      if id in s.steps && LikelyHolder(t.known, s.steps[id].peer, dist) {
        LikelyHolderAntitone(s.known, t.known, s.steps[id].peer, dist);
      }
    }
  }

  lemma SendBatchStep(dist: Metric, s: State, batch: map<StepId, Peer>, id: StepId)
    requires StepOk(dist, s.(known := s.known + batch.Values), id)
    requires id in batch ==> id !in s.steps
    ensures StepOk(dist, ApplySendBatch(dist, s, batch), id)
  {
    hide LikelyHolder;
  }

  lemma SendBatchSteps(dist: Metric, s: State, batch: map<StepId, Peer>)
    requires StepsOk(dist, s) && forall id :: id in batch ==> id !in s.steps
    ensures StepsOk(dist, ApplySendBatch(dist, s, batch))
  {
    LearnKeeps(dist, s, batch.Values);
    hide StepOk, ApplySendBatch;
    forall id: StepId ensures StepOk(dist, ApplySendBatch(dist, s, batch), id) { SendBatchStep(dist, s, batch, id); }
  }

  lemma SendBatchKeeps(dist: Metric, s: State, batch: map<StepId, Peer>)
    requires Inv(dist, s) && s.phase.Selecting? && s.walking && forall id :: id in batch ==> id !in s.steps
    ensures Inv(dist, ApplySendBatch(dist, s, batch))
  {
    hide GateOk, CountsOk, StepsOk, PhaseOk, LikelyHolder;
    var t := ApplySendBatch(dist, s, batch);
    SendBatchSteps(dist, s, batch);
    WalkingPhase(s, t);
    GateSame(s, t);
    CountsSame(s, t);
  }

  lemma TopPhase(t: State)
    requires t.phase.Draining? || t.phase == Ended(Found) || t.phase == Ended(Error)
    ensures PhaseOk(t)
  {
  }

  lemma WalkingPhase(s: State, t: State)
    requires PhaseOk(s) && s.phase.Selecting? && t.phase.Selecting? && t.walking
    requires t.queued == s.queued && t.inFlight == s.inFlight
    ensures PhaseOk(t)
  {
  }

  lemma GateSame(s: State, t: State)
    requires GateOk(s) && t.inFlight == s.inFlight && t.newestStart == s.newestStart && t.startedAt == s.startedAt
    requires t.fetches.Keys == s.fetches.Keys && s.now <= t.now
    ensures GateOk(t)
  {
    assert |s.fetches| == |s.fetches.Keys| && |t.fetches| == |t.fetches.Keys|;
  }

  lemma CountsSame(s: State, t: State)
    requires CountsOk(s) && t.replies == s.replies && t.requests == s.requests
    requires t.replyCount == s.replyCount && t.requestCount == s.requestCount
    ensures CountsOk(t)
  {
  }

  lemma DrainStep(dist: Metric, s: State, id: StepId)
    requires StepOk(dist, s, id)
    ensures StepOk(dist, ApplyDrain(s), id)
  {
    hide LikelyHolder;
  }

  lemma DrainKeeps(dist: Metric, s: State)
    requires Inv(dist, s) && s.phase.Draining?
    ensures Inv(dist, ApplyDrain(s))
  {
    hide GateOk, CountsOk, StepOk;
    var t := ApplyDrain(s);
    forall id: StepId ensures StepOk(dist, t, id) { DrainStep(dist, s, id); }
    GateSame(s, t);
    CountsSame(s, t);
  }

  lemma DropStaleSteps(dist: Metric, s: State)
    requires StepsOk(dist, s)
    ensures StepsOk(dist, DropStale(dist, s))
  {
    hide LikelyHolder;
    var t := DropStale(dist, s);
    forall id: StepId ensures StepOk(dist, t, id) { assert StepOk(dist, s, id); }
  }

  lemma ReleaseStep(dist: Metric, s: State, id: StepId, j: StepId)
    requires StepOk(dist, s, id) && StepOk(dist, s, j) && id in s.queued && !Stale(s, id, dist)
    ensures StepOk(dist, ApplyRelease(dist, s, id), j)
    ensures id !in s.fetches && id !in s.requests
  {
    hide LikelyHolder;
  }

  lemma ReleaseSteps(dist: Metric, s: State, id: StepId)
    requires StepsOk(dist, s) && id in s.queued && !Stale(s, id, dist)
    ensures StepsOk(dist, ApplyRelease(dist, s, id))
    ensures id !in s.fetches && id !in s.requests
  {
    hide StepOk;
    ReleaseStep(dist, s, id, id);
    forall j: StepId ensures StepOk(dist, ApplyRelease(dist, s, id), j) { ReleaseStep(dist, s, id, j); }
  }

  /** One more fetch, started now. */
  lemma GateAdds(s: State, t: State, id: StepId)
    requires GateOk(s) && MayRelease(s) && id !in s.fetches
    requires t.fetches.Keys == s.fetches.Keys + {id} && t.inFlight == s.inFlight + 1 && t.now == s.now
    requires t.newestStart == Some(s.now) && t.startedAt == s.startedAt[id := s.now]
    ensures GateOk(t)
  {
    assert |t.fetches| == |t.fetches.Keys| && |s.fetches| == |s.fetches.Keys|;
  }

  lemma ReleaseGate(dist: Metric, s: State, id: StepId)
    requires GateOk(s) && MayRelease(s) && id in s.queued && id !in s.fetches
    ensures GateOk(ApplyRelease(dist, s, id))
  {
    hide GateOk, StaleSet;
    GateAdds(s, ApplyRelease(dist, s, id), id);
  }

  lemma ReleaseRest(dist: Metric, s: State, id: StepId)
    requires CountsOk(s) && PhaseOk(s) && s.phase.Releasing? && id in s.queued && id !in s.requests
    ensures CountsOk(ApplyRelease(dist, s, id)) && PhaseOk(ApplyRelease(dist, s, id))
  {
    hide StaleSet;
  }

  lemma ReleaseKeeps(dist: Metric, s: State, id: StepId)
    requires Inv(dist, s) && s.phase.Releasing? && MayRelease(s) && id in s.queued && !Stale(s, id, dist)
    ensures Inv(dist, ApplyRelease(dist, s, id))
  {
    hide StepsOk, GateOk, PhaseOk, CountsOk, ApplyRelease, Stale;
    ReleaseSteps(dist, s, id);
    ReleaseGate(dist, s, id);
    ReleaseRest(dist, s, id);
  }

  lemma ReleaseNoneKeeps(dist: Metric, s: State)
    requires Inv(dist, s) && s.phase.Releasing?
    requires MayRelease(s) ==> forall id :: id in s.queued ==> Stale(s, id, dist)
    ensures Inv(dist, (if MayRelease(s) then DropStale(dist, s) else s).(phase := Routing))
  {
    hide StepsOk, GateOk, CountsOk, LikelyHolder;
    var u := if MayRelease(s) then DropStale(dist, s) else s;
    var t := u.(phase := Routing);
    if MayRelease(s) {
      DropStaleSteps(dist, s);
      assert t.queued == map[];
    }
    PhaseSteps(dist, u, t);
    GateSame(s, t);
    CountsSame(s, t);
  }

  /** Moving the loop along keeps every step where it is. */
  lemma PhaseSteps(dist: Metric, s: State, t: State)
    requires StepsOk(dist, s)
    requires t == s.(phase := t.phase, walking := t.walking, now := t.now)
    ensures StepsOk(dist, t)
  {
    hide LikelyHolder;
    forall id: StepId ensures StepOk(dist, t, id) { assert StepOk(dist, s, id); }
  }

  lemma RouteRestStep(dist: Metric, s: State, id: StepId)
    requires StepOk(dist, s, id)
    ensures StepOk(dist, ApplyRouteRest(s), id)
  {
    hide LikelyHolder;
  }

  lemma RouteRestSteps(dist: Metric, s: State)
    requires StepsOk(dist, s)
    ensures StepsOk(dist, ApplyRouteRest(s))
  {
    hide StepOk, ApplyRouteRest;
    forall id: StepId ensures StepOk(dist, ApplyRouteRest(s), id) { RouteRestStep(dist, s, id); }
  }

  lemma RouteRestKeeps(dist: Metric, s: State)
    requires Inv(dist, s) && s.phase.Routing?
    ensures Inv(dist, ApplyRouteRest(s))
  {
    hide GateOk, CountsOk, StepsOk, PhaseOk, ApplyRouteRest;
    var t := ApplyRouteRest(s);
    RouteRestSteps(dist, s);
    RouteRestShape(s);
    GateSame(s, t);
    CountsSame(s, t);
    RouteRestPhase(s);
  }

  lemma RouteRestShape(s: State)
    ensures var t := ApplyRouteRest(s);
      && t.inFlight == s.inFlight && t.newestStart == s.newestStart && t.startedAt == s.startedAt
      && t.fetches == s.fetches && t.now == s.now
      && t.replies == s.replies && t.requests == s.requests
      && t.replyCount == s.replyCount && t.requestCount == s.requestCount
  {
  }

  lemma RouteRestPhase(s: State)
    requires PhaseOk(s) && GateOk(s) && s.phase.Routing?
    ensures PhaseOk(ApplyRouteRest(s))
  {
    assert s.fetches != map[] ==> s.inFlight > 0;
    var t := ApplyRouteRest(s);
    if s.queued == map[] { assert t.queued == map[]; }
    assert t.fetches == s.fetches && t.inFlight == s.inFlight;
  }

  /** The other steps of the same read are not touched by one step's event. */
  lemma OtherStep(dist: Metric, s: State, t: State, j: StepId)
    requires StepOk(dist, s, j)
    requires t.known == s.known && t.inbox == s.inbox && t.steps == s.steps
    requires j in s.queued <==> j in t.queued
    requires j in s.queued ==> t.queued[j] == s.queued[j]
    requires j in s.fetches <==> j in t.fetches
    requires j in s.fetches ==> t.fetches[j] == s.fetches[j]
    requires j in s.routes <==> j in t.routes
    requires j in s.routes ==> t.routes[j] == s.routes[j]
    requires j in s.retired <==> j in t.retired
    requires ReplyTo(s, j) == ReplyTo(t, j)
    requires j in s.requests <==> j in t.requests
    ensures StepOk(dist, t, j)
  {
    hide LikelyHolder;
  }

  /** A fetch replies once and asks once, however its answers come back. */
  lemma FetchEffectOk(f: Fetch, e: Event, reply: Option<Reply>, asked: bool)
    requires FetchTakes(f, e) && FetchOk(f, reply, asked)
    ensures var x := FetchEffect(f, e);
            && (x.reply.Some? ==> reply.None?)
            && (x.asks ==> !asked)
            && FetchOk(x.next, if x.reply.Some? then x.reply else reply, asked || x.asks)
  {
  }

  lemma RouteEffectOk(r: Route, e: Event, reply: Option<Reply>, likely: bool)
    requires RouteTakes(r, e) && RouteOk(r, reply, false, likely)
    ensures var x := RouteEffect(r, e);
            && (x.reply.Some? ==> reply.None?)
            && !x.asks
            && RouteOk(x.next, if x.reply.Some? then x.reply else reply, false, likely)
  {
  }

  lemma ObserveCounts<T>(s: State, id: StepId, x: Effect<T>)
    requires CountsOk(s) && (x.reply.Some? ==> id !in s.replies) && (x.asks ==> id !in s.requests)
    ensures CountsOk(Observe(s, id, x))
  {
    if x.reply.Some? {
      assert |s.replies[id := x.reply.value]| == |s.replies| + 1;
    }
  }

  lemma FetchStep(dist: Metric, s: State, id: StepId, e: Event, j: StepId)
    requires id in s.fetches && FetchTakes(s.fetches[id], e)
    requires StepOk(dist, s.(known := s.known + FetchEffect(s.fetches[id], e).learnt), j)
    ensures StepOk(dist, ApplyFetch(s, id, s.fetches[id], e), j)
  {
    hide LikelyHolder, FetchEffect, FetchTakes;
    var x := FetchEffect(s.fetches[id], e);
    var k, t := s.(known := s.known + x.learnt), ApplyFetch(s, id, s.fetches[id], e);
    if j == id {
      FetchEffectOk(s.fetches[id], e, ReplyTo(s, id), id in s.requests);
      hide FetchOk;
      assert StepOk(dist, t, id);
    } else {
      hide StepOk;
      OtherStep(dist, k, t, j);
    }
  }

  lemma FetchSteps(dist: Metric, s: State, id: StepId, e: Event)
    requires StepsOk(dist, s) && id in s.fetches && FetchTakes(s.fetches[id], e)
    ensures StepsOk(dist, ApplyFetch(s, id, s.fetches[id], e))
    ensures var x := FetchEffect(s.fetches[id], e);
            (x.reply.Some? ==> id !in s.replies) && (x.asks ==> id !in s.requests)
  {
    assert StepOk(dist, s, id);
    FetchEffectOk(s.fetches[id], e, ReplyTo(s, id), id in s.requests);
    LearnKeeps(dist, s, FetchEffect(s.fetches[id], e).learnt);
    hide StepOk, FetchEffect, FetchTakes, ApplyFetch, FetchOk;
    forall j: StepId ensures StepOk(dist, ApplyFetch(s, id, s.fetches[id], e), j) { FetchStep(dist, s, id, e, j); }
  }

  lemma FetchEventKeeps(dist: Metric, s: State, id: StepId, e: Event)
    requires Inv(dist, s) && s.phase.Selecting? && id in s.fetches && FetchTakes(s.fetches[id], e)
    ensures Inv(dist, ApplyFetch(s, id, s.fetches[id], e))
  {
    hide GateOk, CountsOk, StepsOk, FetchEffect, FetchTakes;
    var x, t := FetchEffect(s.fetches[id], e), ApplyFetch(s, id, s.fetches[id], e);
    FetchSteps(dist, s, id, e);
    ObserveCounts(s, id, x);
    CountsSame(Observe(s, id, x), t);
    assert t.fetches.Keys == s.fetches.Keys;
    GateSame(s, t);
  }

  lemma RouteStep(dist: Metric, s: State, id: StepId, e: Event, j: StepId)
    requires id in s.routes && RouteTakes(s.routes[id], e)
    requires StepOk(dist, s.(known := s.known + RouteEffect(s.routes[id], e).learnt), j)
    ensures StepOk(dist, ApplyRoute(s, id, s.routes[id], e), j)
  {
    hide LikelyHolder, RouteEffect, RouteTakes;
    var x := RouteEffect(s.routes[id], e);
    var k, t := s.(known := s.known + x.learnt), ApplyRoute(s, id, s.routes[id], e);
    if j == id {
      assert !(id in s.requests);
      RouteEffectOk(s.routes[id], e, ReplyTo(s, id), LikelyStep(s, id));
      hide RouteOk;
      assert StepOk(dist, t, id);
    } else {
      hide StepOk;
      OtherStep(dist, k, t, j);
    }
  }

  lemma RouteSteps(dist: Metric, s: State, id: StepId, e: Event)
    requires StepsOk(dist, s) && id in s.routes && RouteTakes(s.routes[id], e)
    ensures StepsOk(dist, ApplyRoute(s, id, s.routes[id], e))
    ensures var x := RouteEffect(s.routes[id], e); (x.reply.Some? ==> id !in s.replies) && !x.asks
  {
    assert StepOk(dist, s, id);
    RouteEffectOk(s.routes[id], e, ReplyTo(s, id), LikelyStep(s, id));
    LearnKeeps(dist, s, RouteEffect(s.routes[id], e).learnt);
    hide StepOk, RouteEffect, RouteTakes, ApplyRoute, RouteOk;
    forall j: StepId ensures StepOk(dist, ApplyRoute(s, id, s.routes[id], e), j) { RouteStep(dist, s, id, e, j); }
  }

  lemma RouteEventKeeps(dist: Metric, s: State, id: StepId, e: Event)
    requires Inv(dist, s) && s.phase.Selecting? && id in s.routes && RouteTakes(s.routes[id], e)
    ensures Inv(dist, ApplyRoute(s, id, s.routes[id], e))
  {
    hide GateOk, CountsOk, StepsOk, RouteEffect, RouteTakes;
    var x, t := RouteEffect(s.routes[id], e), ApplyRoute(s, id, s.routes[id], e);
    RouteSteps(dist, s, id, e);
    ObserveCounts(s, id, x);
    CountsSame(Observe(s, id, x), t);
    assert id in t.routes;
    GateSame(s, t);
  }

  lemma FetchEndsStep(dist: Metric, s: State, id: StepId, j: StepId)
    requires id in s.fetches && s.fetches[id].FetchDone? && StepOk(dist, s, j)
    ensures StepOk(dist, ApplyFetchEnds(s, id), j)
  {
    hide LikelyHolder;
  }

  lemma FetchEndsSteps(dist: Metric, s: State, id: StepId)
    requires StepsOk(dist, s) && id in s.fetches && s.fetches[id].FetchDone?
    ensures StepsOk(dist, ApplyFetchEnds(s, id))
  {
    hide StepOk, ApplyFetchEnds;
    forall j: StepId ensures StepOk(dist, ApplyFetchEnds(s, id), j) { FetchEndsStep(dist, s, id, j); }
  }

  lemma FetchEndsGate(s: State, id: StepId)
    requires GateOk(s) && id in s.fetches && s.fetches[id].FetchDone?
    ensures GateOk(ApplyFetchEnds(s, id))
  {
    var t := ApplyFetchEnds(s, id);
    assert t.fetches.Keys + {id} == s.fetches.Keys;
    assert |t.fetches| == |t.fetches.Keys| && |s.fetches| == |s.fetches.Keys|;
  }

  lemma FetchEndsKeeps(dist: Metric, s: State, id: StepId)
    requires Inv(dist, s) && s.phase.Selecting? && id in s.fetches && s.fetches[id].FetchDone?
    ensures Inv(dist, ApplyFetchEnds(s, id))
  {
    hide CountsOk, StepsOk, GateOk, PhaseOk;
    var t := ApplyFetchEnds(s, id);
    FetchEndsSteps(dist, s, id);
    CountsSame(s, t);
    TopPhase(t);
    FetchEndsGate(s, id);
  }

  lemma RouteEndsStep(dist: Metric, s: State, id: StepId, j: StepId)
    requires id in s.routes && s.routes[id].RouteDone? && StepOk(dist, s, j)
    ensures StepOk(dist, ApplyRouteEnds(s, id), j)
  {
    hide LikelyHolder;
  }

  lemma RouteEndsShape(s: State, id: StepId)
    requires id in s.routes && s.routes[id].RouteDone?
    ensures var t := ApplyRouteEnds(s, id);
            && t == s.(queued := t.queued, routes := t.routes, retired := t.retired, phase := Draining)
  {
  }

  lemma RouteEndsSteps(dist: Metric, s: State, id: StepId)
    requires StepsOk(dist, s) && id in s.routes && s.routes[id].RouteDone?
    ensures StepsOk(dist, ApplyRouteEnds(s, id))
  {
    hide StepOk, ApplyRouteEnds;
    forall j: StepId ensures StepOk(dist, ApplyRouteEnds(s, id), j) { RouteEndsStep(dist, s, id, j); }
  }

  lemma RouteEndsKeeps(dist: Metric, s: State, id: StepId)
    requires Inv(dist, s) && s.phase.Selecting? && id in s.routes && s.routes[id].RouteDone?
    ensures Inv(dist, ApplyRouteEnds(s, id))
  {
    hide CountsOk, StepsOk, GateOk, PhaseOk, ApplyRouteEnds;
    var t := ApplyRouteEnds(s, id);
    RouteEndsSteps(dist, s, id);
    RouteEndsShape(s, id);
    TopPhase(t);
    CountsSame(s, t);
    GateSame(s, t);
  }

  /** The loop's own moves: time, a received step, a due hedge, the walk's end. */
  lemma MoveKeeps(dist: Metric, s: State, t: State)
    requires Inv(dist, s) && s.now <= t.now
    requires t == s.(phase := t.phase, walking := t.walking, now := t.now)
    requires t.phase.Draining? || (t.phase == s.phase && t.walking == s.walking)
    ensures Inv(dist, t)
  {
    hide CountsOk, StepsOk, GateOk;
    PhaseSteps(dist, s, t);
    CountsSame(s, t);
    GateSame(s, t);
  }

  lemma StepKeeps(dist: Metric, s: State, l: Label)
    requires Inv(dist, s) && Enabled(dist, s, l)
    ensures Inv(dist, Apply(dist, s, l))
  {
    hide Inv, LikelyHolder;
    match l
    case Tick(elapsed) => MoveKeeps(dist, s, s.(now := s.now + elapsed));
    case SendBatch(batch) => SendBatchKeeps(dist, s, batch);
    case Drain => DrainKeeps(dist, s);
    case Release(id) => ReleaseKeeps(dist, s, id);
    case ReleaseNone => ReleaseNoneKeeps(dist, s);
    case RouteRest => RouteRestKeeps(dist, s);
    case StepReceived => MoveKeeps(dist, s, s.(phase := Draining));
    case FetchEvent(id, e) => FetchEventKeeps(dist, s, id, e);
    case FetchEnds(id) => FetchEndsKeeps(dist, s, id);
    case RouteEvent(id, e) => RouteEventKeeps(dist, s, id, e);
    case RouteEnds(id) => RouteEndsKeeps(dist, s, id);
    case HedgeFires => MoveKeeps(dist, s, s.(phase := Draining));
    case WalkEnds => MoveKeeps(dist, s, s.(walking := false, phase := Draining));
  }

  lemma {:induction false} RunKeeps(dist: Metric, seeds: set<Peer>, labels: seq<Label>)
    requires After(dist, seeds, labels).Some?
    ensures Inv(dist, After(dist, seeds, labels).value)
  {
    if labels == [] {
      InitInv(dist, seeds);
    } else {
      var last := |labels| - 1;
      RunKeeps(dist, seeds, labels[..last]);
      StepKeeps(dist, After(dist, seeds, labels[..last]).value, labels[last]);
    }
  }

  lemma ReachableInv(dist: Metric, s: State)
    requires Reachable(dist, s)
    ensures Inv(dist, s)
  {
    var seeds, labels :| After(dist, seeds, labels) == Some(s);
    RunKeeps(dist, seeds, labels);
  }
}
