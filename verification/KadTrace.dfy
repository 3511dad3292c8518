/** What the network showed in a run of a Kademlia read, taken from its labels
    alone, and how the read's outcome follows from it. */
module KadTrace {
  import opened Prelude
  import opened ReadOrder
  import opened KadRead

  /** The time, the peers heard of, the peer of every step sent, the steps whose peer
      was a likely holder then, when each step was released, and the steps whose peer
      was asked for the chunk, sent closer peers, failed FIND_NODE, could not be
      reached or failed its step, sent the chunk, or failed its fetch for good. */
  datatype Seen = Seen(
    clock: nat,
    known: set<Peer>,
    peers: map<StepId, Peer>,
    likely: set<StepId>,
    released: map<StepId, nat>,
    asked: set<StepId>,
    closer: set<StepId>,
    lost: set<StepId>,
    failed: set<StepId>,
    chunks: set<StepId>,
    fatal: set<StepId>)

  /** The peer sent the chunk. */
  predicate BringsChunk(e: Event) {
    e.StepFound? || e == GetOk(true)
  }

  /** A failure that is not to be retried. */
  predicate IsFatal(e: Event) {
    (e.PrepareFailed? || e.StepFailed? || e.GetFailed?) && !e.retryable
  }

  predicate BringsCloser(e: Event) {
    e.StepCloser? || e.FindOk?
  }

  function If(b: bool, id: StepId): set<StepId> {
    if b then {id} else {}
  }

  function Told(x: Seen, id: StepId, e: Event): Seen {
    x.(known := x.known + (if BringsCloser(e) then e.nodes else {}),
       closer := x.closer + If(BringsCloser(e), id),
       lost := x.lost + If(e.FindFailed?, id),
       failed := x.failed + If(e.PrepareFailed? || e.StepFailed?, id))
  }

  /** Fewer than fourteen peers are known, or fewer than seven of them are nearer. */
  predicate IsLikely(dist: Metric, known: set<Peer>, peer: Peer) {
    |known| < 14 || |NearerThan(known, peer, dist)| < 7
  }

  function See(dist: Metric, x: Seen, l: Label): Seen {
    match l
    case Tick(elapsed) => x.(clock := x.clock + elapsed)
    case SendBatch(batch) =>
      var known := x.known + batch.Values;
      x.(known := known, peers := x.peers + batch,
         likely := x.likely + set id | id in batch && IsLikely(dist, known, batch[id]))
    case Release(id) => x.(released := x.released[id := x.clock], asked := x.asked + If(id in x.closer, id))
    case FetchEvent(id, e) =>
      Told(x, id, e).(asked := x.asked + If(e.Prepared?, id),
                      chunks := x.chunks + If(BringsChunk(e), id),
                      fatal := x.fatal + If(IsFatal(e), id))
    case RouteEvent(id, e) => Told(x, id, e)
    case _ => x
  }

  function Watch(dist: Metric, seeds: set<Peer>, labels: seq<Label>): Seen {
    if labels == [] then Seen(0, seeds, map[], {}, map[], {}, {}, {}, {}, {}, {})
    else See(dist, Watch(dist, seeds, labels[..|labels| - 1]), labels[|labels| - 1])
  }

  // The read's books

  ghost predicate BooksOk(s: State, x: Seen) {
    && s.now == x.clock
    && s.known == x.known
    && s.startedAt == x.released
    && s.requests == x.asked
    && s.steps.Keys == x.peers.Keys && x.likely <= x.peers.Keys
    && forall id :: id in s.steps ==> s.steps[id].peer == x.peers[id] && (s.steps[id].likely <==> id in x.likely)
  }

  /** What came of a fetch so far. */
  predicate FetchAgrees(f: Fetch, chunk: bool, fatal: bool, found: bool) {
    && (chunk <==> f == FetchDone(Chunk))
    && (fatal <==> f == FetchDone(Fatal) || f == AwaitFind(Fatal))
    && (f.Replied? ==> found) && f != AwaitFind(Chunk)
  }

  /** What the lookup was told of a step is what its peer sent. */
  predicate ReplyAgrees(reply: Option<Reply>, closer: bool, lost: bool, failed: bool, chunk: bool) {
    match reply
    case None => !closer && !lost && !failed && !chunk
    case Some(Closer) => closer && !lost && !failed
    case Some(Answered) => chunk && !closer && !lost && !failed
    case Some(Failed) => !closer && (lost || failed) && (chunk ==> lost)
  }

  predicate StepAgrees(s: State, x: Seen, id: StepId) {
    && ReplyAgrees(ReplyTo(s, id), id in x.closer, id in x.lost, id in x.failed, id in x.chunks)
    && (id in s.fetches ==> FetchAgrees(s.fetches[id], id in x.chunks, id in x.fatal, id in x.closer + x.lost))
    && (id !in s.fetches && !s.phase.Ended? ==> id !in x.chunks && id !in x.fatal)
    && (s.phase == Ended(NotFound) ==> id !in x.chunks && id !in x.fatal)
    && (id in x.chunks ==> id in s.requests)
  }

  ghost predicate Agrees(s: State, x: Seen) {
    BooksOk(s, x) && forall id: StepId :: StepAgrees(s, x, id)
  }

  lemma FetchTraceOk(f: Fetch, e: Event, reply: Option<Reply>, asked: bool, closer: bool, lost: bool,
                     failed: bool)
    requires FetchTakes(f, e) && FetchOk(f, reply, asked)
    requires ReplyAgrees(reply, closer, lost, failed, false)
    requires FetchAgrees(f, false, f == AwaitFind(Fatal), closer || lost)
    ensures var y := FetchEffect(f, e);
      && FetchAgrees(y.next, BringsChunk(e), f == AwaitFind(Fatal) || IsFatal(e),
                     closer || BringsCloser(e) || lost || e.FindFailed?)
      && ReplyAgrees(if y.reply.Some? then y.reply else reply, closer || BringsCloser(e), lost || e.FindFailed?,
                     failed || e.PrepareFailed? || e.StepFailed?, BringsChunk(e))
      && (BringsChunk(e) ==> asked)
  {
  }

  lemma FetchTeaches(f: Fetch, e: Event)
    requires FetchTakes(f, e)
    ensures var y := FetchEffect(f, e);
      y.learnt == (if BringsCloser(e) then e.nodes else {}) && (y.asks <==> e.Prepared?) && !f.FetchDone?
  {
  }

  lemma RouteTraceOk(r: Route, e: Event)
    requires RouteTakes(r, e)
    ensures var y := RouteEffect(r, e);
      && ReplyAgrees(y.reply, BringsCloser(e), e.FindFailed?, e.PrepareFailed?, false)
      && y.learnt == (if BringsCloser(e) then e.nodes else {}) && !y.asks
  {
  }

  /** An event of another step. */
  lemma OtherAgrees(s: State, x: Seen, t: State, y: Seen, j: StepId)
    requires StepAgrees(s, x, j) && t.phase == s.phase && ReplyTo(t, j) == ReplyTo(s, j)
    requires j in t.fetches <==> j in s.fetches
    requires j in s.fetches ==> t.fetches[j] == s.fetches[j]
    requires j in y.closer <==> j in x.closer
    requires j in y.lost <==> j in x.lost
    requires j in y.failed <==> j in x.failed
    requires j in y.chunks <==> j in x.chunks
    requires j in y.fatal <==> j in x.fatal
    requires s.requests <= t.requests
    ensures StepAgrees(t, y, j)
  {
    hide FetchAgrees, ReplyAgrees, ReplyTo;
  }

  lemma FetchEventStep(dist: Metric, s: State, x: Seen, id: StepId, e: Event, j: StepId)
    requires s.phase.Selecting? && id in s.fetches && FetchTakes(s.fetches[id], e)
    requires StepOk(dist, s, id) && StepAgrees(s, x, id) && StepAgrees(s, x, j)
    ensures StepAgrees(ApplyFetch(s, id, s.fetches[id], e), See(dist, x, FetchEvent(id, e)), j)
  {
    hide FetchEffect, StepOk, FetchTakes, ReplyAgrees, IsFatal, BringsCloser, BringsChunk, FetchAgrees;
    var t, y := ApplyFetch(s, id, s.fetches[id], e), See(dist, x, FetchEvent(id, e));
    if j == id {
      FetchEventOwn(dist, s, x, id, e);
    } else {
      OtherAgrees(s, x, t, y, j);
    }
  }

  lemma FetchBefore(dist: Metric, s: State, x: Seen, id: StepId, e: Event)
    requires s.phase.Selecting? && id in s.fetches && FetchTakes(s.fetches[id], e)
    requires StepOk(dist, s, id) && StepAgrees(s, x, id)
    ensures FetchOk(s.fetches[id], ReplyTo(s, id), id in s.requests)
    ensures id !in x.chunks && (id in x.fatal <==> s.fetches[id] == AwaitFind(Fatal))
    ensures FetchAgrees(s.fetches[id], false, s.fetches[id] == AwaitFind(Fatal), id in x.closer || id in x.lost)
    ensures ReplyAgrees(ReplyTo(s, id), id in x.closer, id in x.lost, id in x.failed, false)
  {
    hide LikelyHolder, OnePlace, RouteOk, FetchOk, ReplyAgrees;
  }

  lemma FetchEventOwn(dist: Metric, s: State, x: Seen, id: StepId, e: Event)
    requires s.phase.Selecting? && id in s.fetches && FetchTakes(s.fetches[id], e)
    requires StepOk(dist, s, id) && StepAgrees(s, x, id)
    ensures StepAgrees(ApplyFetch(s, id, s.fetches[id], e), See(dist, x, FetchEvent(id, e)), id)
  {
    FetchBefore(dist, s, x, id, e);
    hide FetchEffect, StepOk, FetchTakes, ReplyAgrees, IsFatal, BringsCloser, BringsChunk, FetchAgrees, StepAgrees,
         FetchOk, See, ApplyFetch, ReplyTo;
    var f := s.fetches[id];
    FetchTraceOk(f, e, ReplyTo(s, id), id in s.requests, id in x.closer, id in x.lost, id in x.failed);
    FetchShape(s, id, e);
    SeenOf(dist, x, id, e);
    Together(ApplyFetch(s, id, f, e), See(dist, x, FetchEvent(id, e)), id);
  }

  lemma FetchShape(s: State, id: StepId, e: Event)
    requires id in s.fetches
    ensures var f := s.fetches[id];
      var t, y := ApplyFetch(s, id, f, e), FetchEffect(f, e);
      && t.phase == s.phase && id in t.fetches && t.fetches[id] == y.next
      && s.requests <= t.requests
      && ReplyTo(t, id) == if y.reply.Some? then y.reply else ReplyTo(s, id)
  {
    hide FetchEffect;
  }

  lemma SeenOf(dist: Metric, x: Seen, id: StepId, e: Event)
    ensures var y := See(dist, x, FetchEvent(id, e));
      && (id in y.chunks <==> id in x.chunks || BringsChunk(e)) && (id in y.fatal <==> id in x.fatal || IsFatal(e))
      && (id in y.closer <==> id in x.closer || BringsCloser(e)) && (id in y.lost <==> id in x.lost || e.FindFailed?)
      && (id in y.failed <==> id in x.failed || e.PrepareFailed? || e.StepFailed?)
  {
  }

  lemma Together(s: State, x: Seen, id: StepId)
    requires s.phase.Selecting? && id in s.fetches
    requires FetchAgrees(s.fetches[id], id in x.chunks, id in x.fatal, id in x.closer || id in x.lost)
    requires ReplyAgrees(ReplyTo(s, id), id in x.closer, id in x.lost, id in x.failed, id in x.chunks)
    requires id in x.chunks ==> id in s.requests
    ensures StepAgrees(s, x, id)
  {
  }

  lemma RouteEventStep(dist: Metric, s: State, x: Seen, id: StepId, e: Event, j: StepId)
    requires s.phase.Selecting? && id in s.routes && RouteTakes(s.routes[id], e)
    requires StepOk(dist, s, id) && StepAgrees(s, x, id) && StepAgrees(s, x, j)
    ensures StepAgrees(ApplyRoute(s, id, s.routes[id], e), See(dist, x, RouteEvent(id, e)), j)
  {
    hide RouteEffect, LikelyHolder, BringsCloser, FetchAgrees, FetchOk;
    RouteTraceOk(s.routes[id], e);
  }

  /** A step that neither hears from a peer nor starts or ends a fetch. */
  lemma QuietStep(s: State, x: Seen, t: State, y: Seen, j: StepId)
    requires StepAgrees(s, x, j) && !s.phase.Ended?
    requires t.fetches == s.fetches && t.replies == s.replies && t.requests == s.requests
    requires y.closer == x.closer && y.lost == x.lost && y.failed == x.failed
    requires y.chunks == x.chunks && y.fatal == x.fatal
    requires !t.phase.Ended? || j !in s.fetches
    ensures StepAgrees(t, y, j)
  {
    hide FetchAgrees, ReplyAgrees;
  }

  lemma ReleaseAgrees(dist: Metric, s: State, x: Seen, id: StepId, j: StepId)
    requires s.phase.Releasing? && id in s.queued && StepOk(dist, s, id) && StepAgrees(s, x, j)
    ensures StepAgrees(ApplyRelease(dist, s, id), See(dist, x, Release(id)), j)
  {
    hide StaleSet, LikelyHolder, ReplyAgrees, FetchOk, RouteOk;
  }

  lemma FetchEndsAgrees(dist: Metric, s: State, x: Seen, id: StepId, j: StepId)
    requires s.phase.Selecting? && id in s.fetches && s.fetches[id].FetchDone? && StepAgrees(s, x, j)
    ensures StepAgrees(ApplyFetchEnds(s, id), x, j)
  {
    hide ReplyAgrees;
  }

  lemma QuietSteps(s: State, x: Seen, t: State, y: Seen)
    requires !s.phase.Ended? && t.fetches == s.fetches && t.replies == s.replies && t.requests == s.requests
    requires y.closer == x.closer && y.lost == x.lost && y.failed == x.failed
    requires y.chunks == x.chunks && y.fatal == x.fatal
    requires !t.phase.Ended? || s.fetches == map[]
    requires forall id: StepId :: StepAgrees(s, x, id)
    ensures forall id: StepId :: StepAgrees(t, y, id)
  {
    hide StepAgrees;
    forall id: StepId ensures StepAgrees(t, y, id) { QuietStep(s, x, t, y, id); }
  }

  /** Moves steps about, and nothing else. */
  predicate OnlyMoves(s: State, t: State) {
    && t.now == s.now && t.known == s.known && t.startedAt == s.startedAt && t.steps == s.steps
    && t.requests == s.requests && t.replies == s.replies
  }

  lemma LoopMoves(dist: Metric, s: State)
    ensures var t := ApplyDrain(s); OnlyMoves(s, t) && t.fetches == s.fetches && !t.phase.Ended?
    ensures var t := DropStale(dist, s); OnlyMoves(s, t) && t.fetches == s.fetches
    ensures var t := ApplyRouteRest(s);
      OnlyMoves(s, t) && t.fetches == s.fetches && (t.phase.Ended? ==> s.fetches == map[])
  {
    hide StaleSet, LikelyStep;
  }

  lemma RouteEndMoves(s: State, id: StepId)
    requires id in s.routes && s.routes[id].RouteDone?
    ensures var t := ApplyRouteEnds(s, id); OnlyMoves(s, t) && t.fetches == s.fetches && !t.phase.Ended?
  {
    RouteEndsShape(s, id);
  }

  lemma FetchEndMoves(s: State, id: StepId)
    requires id in s.fetches && s.fetches[id].FetchDone?
    ensures OnlyMoves(s, ApplyFetchEnds(s, id))
  {
  }

  lemma QuietLabel(dist: Metric, s: State, l: Label)
    requires Enabled(dist, s, l) && !l.Release? && !l.FetchEvent? && !l.FetchEnds? && !l.RouteEvent?
    ensures var t := Apply(dist, s, l);
      && !s.phase.Ended? && t.fetches == s.fetches && t.replies == s.replies && t.requests == s.requests
      && (t.phase.Ended? ==> s.fetches == map[])
      && (!l.Tick? && !l.SendBatch? ==> OnlyMoves(s, t))
  {
    hide MayRelease, HedgeDeadline, Stale, ApplyRouteRest, ApplyDrain, DropStale, ApplyRouteEnds, RouteTakes,
         FetchTakes;
    LoopMoves(dist, s);
    if l.RouteEnds? { RouteEndMoves(s, l.id); }
  }

  lemma StepsAgree(dist: Metric, s: State, x: Seen, l: Label)
    requires StepsOk(dist, s) && Enabled(dist, s, l) && forall id: StepId :: StepAgrees(s, x, id)
    ensures forall id: StepId :: StepAgrees(Apply(dist, s, l), See(dist, x, l), id)
  {
    hide StepAgrees, StepOk, ApplyRelease, ApplyFetch, ApplyRoute, ApplyFetchEnds, ApplyRouteRest, ApplyDrain,
         DropStale, ApplySendBatch, ApplyRouteEnds, MayRelease, HedgeDeadline, Stale, FetchTakes, RouteTakes, See;
    var t, y := Apply(dist, s, l), See(dist, x, l);
    match l
    case Release(id) => forall j: StepId ensures StepAgrees(t, y, j) { ReleaseAgrees(dist, s, x, id, j); }
    case FetchEvent(id, e) => forall j: StepId ensures StepAgrees(t, y, j) { FetchEventStep(dist, s, x, id, e, j); }
    case RouteEvent(id, e) => forall j: StepId ensures StepAgrees(t, y, j) { RouteEventStep(dist, s, x, id, e, j); }
    case FetchEnds(id) =>
      assert y == x by { SeeNothing(dist, x, l); }
      forall j: StepId ensures StepAgrees(t, y, j) { FetchEndsAgrees(dist, s, x, id, j); }
    case _ =>
      QuietLabel(dist, s, l);
      SeeQuiet(dist, x, l);
      QuietSteps(s, x, t, y);
  }

  lemma SeeNothing(dist: Metric, x: Seen, l: Label)
    requires l.FetchEnds?
    ensures See(dist, x, l) == x
  {
  }

  lemma SeeQuiet(dist: Metric, x: Seen, l: Label)
    requires !l.FetchEvent? && !l.RouteEvent?
    ensures var y := See(dist, x, l);
      y.closer == x.closer && y.lost == x.lost && y.failed == x.failed && y.chunks == x.chunks && y.fatal == x.fatal
  {
  }

  // The books, label by label

  lemma ReleaseBooks(dist: Metric, s: State, x: Seen, id: StepId)
    requires s.phase.Releasing? && id in s.queued && BooksOk(s, x) && StepOk(dist, s, id) && StepAgrees(s, x, id)
    ensures BooksOk(ApplyRelease(dist, s, id), See(dist, x, Release(id)))
  {
    hide StaleSet, LikelyHolder, FetchAgrees, FetchOk, RouteOk, OnePlace;
  }

  lemma EventBooks(dist: Metric, s: State, x: Seen, l: Label)
    requires BooksOk(s, x)
    ensures l.FetchEvent? && l.id in s.fetches && FetchTakes(s.fetches[l.id], l.event) ==>
              BooksOk(ApplyFetch(s, l.id, s.fetches[l.id], l.event), See(dist, x, l))
    ensures l.RouteEvent? && l.id in s.routes && RouteTakes(s.routes[l.id], l.event) ==>
              BooksOk(ApplyRoute(s, l.id, s.routes[l.id], l.event), See(dist, x, l))
  {
    hide FetchEffect, RouteEffect, FetchTakes, RouteTakes, BringsCloser, BringsChunk, IsFatal;
    match l
    case FetchEvent(id, e) => if id in s.fetches && FetchTakes(s.fetches[id], e) { FetchTeaches(s.fetches[id], e); }
    case RouteEvent(id, e) => if id in s.routes && RouteTakes(s.routes[id], e) { RouteTraceOk(s.routes[id], e); }
    case _ =>
  }

  lemma SendStep(dist: Metric, s: State, x: Seen, batch: map<StepId, Peer>, id: StepId)
    requires BooksOk(s, x) && (forall b :: b in batch ==> b !in s.steps) && (id in s.steps || id in batch)
    ensures var t, y := ApplySendBatch(dist, s, batch), See(dist, x, SendBatch(batch));
      id in t.steps && id in y.peers && t.steps[id].peer == y.peers[id] && (t.steps[id].likely <==> id in y.likely)
  {
    if id in batch {
      assert id !in s.steps && id !in x.likely;
      var known := s.known + batch.Values;
      assert LikelyHolder(known, batch[id], dist) <==> IsLikely(dist, known, batch[id]);
    }
    hide LikelyHolder, IsLikely;
  }

  lemma SendBooks(dist: Metric, s: State, x: Seen, batch: map<StepId, Peer>)
    requires BooksOk(s, x) && forall b :: b in batch ==> b !in s.steps
    ensures BooksOk(ApplySendBatch(dist, s, batch), See(dist, x, SendBatch(batch)))
  {
    hide LikelyHolder, IsLikely;
    var t, y := ApplySendBatch(dist, s, batch), See(dist, x, SendBatch(batch));
    assert t.steps.Keys == s.steps.Keys + batch.Keys && y.peers.Keys == x.peers.Keys + batch.Keys;
    assert t.now == y.clock && t.known == y.known && t.startedAt == y.released && t.requests == y.asked;
    assert y.likely <= y.peers.Keys;
    forall id | id in t.steps
      ensures t.steps[id].peer == y.peers[id] && (t.steps[id].likely <==> id in y.likely)
    {
      SendStep(dist, s, x, batch, id);
    }
  }

  lemma OtherBooks(dist: Metric, s: State, x: Seen, l: Label)
    requires BooksOk(s, x) && Enabled(dist, s, l) && !l.Release? && !l.FetchEvent? && !l.RouteEvent?
    ensures BooksOk(Apply(dist, s, l), See(dist, x, l))
  {
    hide Enabled, ApplyRouteRest, ApplyDrain, DropStale, ApplyRouteEnds, ApplyFetchEnds, ApplySendBatch;
    if l.SendBatch? {
      BatchIsNew(dist, s, l);
      SendBooks(dist, s, x, l.batch);
    } else if l.FetchEnds? {
      EndsEnabled(dist, s, l);
      FetchEndMoves(s, l.id);
    } else {
      QuietLabel(dist, s, l);
    }
  }

  lemma BatchIsNew(dist: Metric, s: State, l: Label)
    requires Enabled(dist, s, l) && l.SendBatch?
    ensures forall id :: id in l.batch ==> id !in s.steps
  {
  }

  lemma EndsEnabled(dist: Metric, s: State, l: Label)
    requires Enabled(dist, s, l) && l.FetchEnds?
    ensures l.id in s.fetches && s.fetches[l.id].FetchDone?
  {
  }

  lemma BooksAgree(dist: Metric, s: State, x: Seen, l: Label)
    requires StepsOk(dist, s) && Agrees(s, x) && Enabled(dist, s, l)
    ensures BooksOk(Apply(dist, s, l), See(dist, x, l))
  {
    hide BooksOk, StepAgrees, StepOk, ApplyRelease, ApplyFetch, ApplyRoute, FetchTakes, RouteTakes, See, MayRelease,
         Stale;
    match l
    case Release(id) => ReleaseBooks(dist, s, x, id);
    case FetchEvent(_, _) => EventBooks(dist, s, x, l);
    case RouteEvent(_, _) => EventBooks(dist, s, x, l);
    case _ => OtherBooks(dist, s, x, l);
  }

  lemma InitAgrees(dist: Metric, seeds: set<Peer>)
    ensures Agrees(Init(seeds), Watch(dist, seeds, []))
  {
  }

  /** In every run the read's clock, the peers it knows, when it released each step,
      whom it asked for the chunk and what it told the lookup are as the labels show. */
  lemma {:induction false} RunAgrees(dist: Metric, seeds: set<Peer>, labels: seq<Label>)
    requires After(dist, seeds, labels).Some?
    ensures Agrees(After(dist, seeds, labels).value, Watch(dist, seeds, labels))
  {
    if labels == [] {
      InitAgrees(dist, seeds);
    } else {
      hide BooksOk, StepAgrees, StepOk, See, Apply, Enabled;
      var last := |labels| - 1;
      RunAgrees(dist, seeds, labels[..last]);
      RunKeeps(dist, seeds, labels[..last]);
      var s, x := After(dist, seeds, labels[..last]).value, Watch(dist, seeds, labels[..last]);
      StepsAgree(dist, s, x, labels[last]);
      BooksAgree(dist, s, x, labels[last]);
    }
  }

  // How a read ends

  lemma StepOutcome(dist: Metric, s: State, x: Seen, l: Label)
    requires Enabled(dist, s, l) && forall id: StepId :: StepAgrees(s, x, id)
    ensures Apply(dist, s, l).phase == Ended(Found) <==> l.FetchEnds? && l.id in x.chunks
    ensures Apply(dist, s, l).phase == Ended(Error) <==> l.FetchEnds? && l.id in x.fatal
  {
    if l.FetchEnds? {
      assert StepAgrees(s, x, l.id);
    }
    hide StepAgrees, StaleSet, LikelyStep, LikelyHolder, MayRelease, HedgeDeadline, Stale, FetchEffect, RouteEffect,
         FetchTakes, RouteTakes;
  }

  /** The read returns the chunk exactly when a fetch ends whose peer sent it, having
      been asked for it; it fails exactly when a fetch ends that failed for good; and
      it ends with nothing only if no peer sent the chunk and no fetch failed for
      good. */
  lemma OutcomeExact(dist: Metric, seeds: set<Peer>, labels: seq<Label>)
    requires After(dist, seeds, labels).Some? && labels != []
    ensures var s, x, l := After(dist, seeds, labels).value, Watch(dist, seeds, labels), labels[|labels| - 1];
      && (s.phase == Ended(Found) <==> l.FetchEnds? && l.id in x.chunks)
      && (s.phase == Ended(Found) ==> l.id in x.asked)
      && (s.phase == Ended(Error) <==> l.FetchEnds? && l.id in x.fatal)
      && (s.phase == Ended(NotFound) ==> x.chunks == {} && x.fatal == {})
  {
    var last := |labels| - 1;
    var l := labels[last];
    var s, x := After(dist, seeds, labels[..last]).value, Watch(dist, seeds, labels[..last]);
    RunAgrees(dist, seeds, labels[..last]);
    RunKeeps(dist, seeds, labels[..last]);
    RunAgrees(dist, seeds, labels);
    StepOutcome(dist, s, x, l);
    if l.FetchEnds? {
      SeeNothing(dist, x, l);
      if l.id in x.chunks { ChunkAsked(s, x, l.id); }
    }
    hide See, Apply, Enabled, BooksOk, StepAgrees;
    NothingCame(After(dist, seeds, labels).value, Watch(dist, seeds, labels));
  }

  lemma ChunkAsked(s: State, x: Seen, id: StepId)
    requires Agrees(s, x) && id in x.chunks
    ensures id in x.asked
  {
    assert StepAgrees(s, x, id);
  }

  lemma NothingCame(s: State, x: Seen)
    requires Agrees(s, x)
    ensures s.phase == Ended(NotFound) ==> x.chunks == {} && x.fatal == {}
  {
    if s.phase == Ended(NotFound) {
      forall id: StepId ensures id !in x.chunks && id !in x.fatal { assert StepAgrees(s, x, id); }
    }
  }
}
