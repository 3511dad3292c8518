/** Admission of physical GETs, `client_engine/read_budget.rs`: a byte budget, a
    share for speculative reads, a cap that follows local processing, and queued
    reads that sleep on a watch channel. */
module ReadBudget {
  import opened Prelude

  const PROCESSING_TARGET: nat := 50_000_000
  const PROCESSING_WINDOW_SAMPLES: nat := 8
  const SPECULATIVE_SHARE_DIVISOR: nat := 2

  /** What the lock guards. */
  datatype Budget = Budget(
    active: nat,
    speculative: nat,
    queued: nat,
    processingCap: nat,
    processingStarted: Option<nat>,
    processingTime: nat,
    processingSamples: nat,
    slowSamples: nat,
    closed: bool)

  function Capacity(maxBytes: nat, reservationBytes: nat): nat {
    Max(maxBytes / Max(reservationBytes, 1), 1)
  }

  function Empty(capacity: nat): Budget {
    Budget(0, 0, 0, capacity, None, 0, 0, 0, false)
  }

  function Limit(capacity: nat, b: Budget, desired: nat): nat {
    Min(Min(Max(desired, 1), capacity), b.processingCap)
  }

  predicate WithinShare(b: Budget, cap: nat, speculative: bool) {
    !speculative || b.speculative < cap / SPECULATIVE_SHARE_DIVISOR
  }

  /** Whether a read that evaluates its admission now gets a permit. */
  predicate Admits(capacity: nat, b: Budget, desired: nat, speculative: bool) {
    var cap := Limit(capacity, b, desired);
    !b.closed && b.active < cap && WithinShare(b, cap, speculative)
  }

  function Admitted(b: Budget, speculative: bool, now: nat): Budget {
    b.(active := b.active + 1,
       speculative := b.speculative + if speculative then 1 else 0,
       processingStarted := if b.processingStarted.None? then Some(now) else b.processingStarted)
  }

  function Released(b: Budget, speculative: bool): Budget
    requires b.active > 0 && (speculative ==> b.speculative > 0)
  {
    b.(active := b.active - 1, speculative := b.speculative - if speculative then 1 else 0)
  }

  /** One observation of local processing. */
  datatype Sample = Sample(processing: nat, delay: nat, desired: nat, now: nat)

  function Elapsed(started: nat, now: nat): nat { if now < started then 0 else now - started }

  /** A sample added to the current window. */
  function Sampled(b: Budget, o: Sample): Budget {
    b.(processingStarted := if b.processingStarted.None? then Some(o.now) else b.processingStarted,
       processingTime := b.processingTime + o.processing,
       processingSamples := b.processingSamples + 1,
       slowSamples := b.slowSamples + if Max(o.processing, o.delay) > PROCESSING_TARGET then 1 else 0)
  }

  predicate WindowFull(b: Budget) { b.processingSamples >= PROCESSING_WINDOW_SAMPLES }

  /** The cap at the end of a window: halved under sustained load, else one more. */
  function NextCap(capacity: nat, b: Budget, o: Sample): nat
    requires b.processingStarted.Some?
  {
    if b.processingTime > Elapsed(b.processingStarted.value, o.now) / 2 && b.slowSamples >= 2
    then Max(Max(Min(o.desired, b.processingCap), 1) / 2, 1)
    else Min(b.processingCap + 1, capacity)
  }

  function WindowEnded(capacity: nat, b: Budget, o: Sample): Budget
    requires b.processingStarted.Some?
  {
    b.(processingCap := NextCap(capacity, b, o),
       processingStarted := if b.active > 1 then Some(o.now) else None,
       processingTime := 0, processingSamples := 0, slowSamples := 0)
  }

  function Observed(capacity: nat, b: Budget, o: Sample): Budget {
    var next := Sampled(b, o);
    if WindowFull(next) then WindowEnded(capacity, next, o) else next
  }

  /** The budget keeps within its bounds. */
  predicate Bounded(capacity: nat, b: Budget) {
    && b.speculative <= b.active <= capacity
    && b.speculative <= capacity / SPECULATIVE_SHARE_DIVISOR
    && 1 <= b.processingCap <= capacity
    && b.slowSamples <= b.processingSamples < PROCESSING_WINDOW_SAMPLES
  }

  /** The object the callers share. */
  class Shared {
    const capacity: nat
    var active: nat
    var speculative: nat
    var queued: nat
    var processingCap: nat
    var processingStarted: Option<nat>
    var processingTime: nat
    var processingSamples: nat
    var slowSamples: nat
    var closed: bool

    function View(): Budget
      reads this
    {
      Budget(active, speculative, queued, processingCap, processingStarted, processingTime, processingSamples,
             slowSamples, closed)
    }

    constructor (maxBytes: nat, reservationBytes: nat)
      ensures capacity == Capacity(maxBytes, reservationBytes) && View() == Empty(capacity)
    {
      var c := Capacity(maxBytes, reservationBytes);
      capacity, processingCap := c, c;
      active, speculative, queued := 0, 0, 0;
      processingStarted, processingTime, processingSamples, slowSamples := None, 0, 0, 0;
      closed := false;
    }

    /** One evaluation of a queued read: `None` to go on waiting, else whether it
        got its permit. */
    method Evaluate(desired: nat, speculation: bool, now: nat) returns (answer: Option<bool>)
      modifies this
      ensures answer.None? ==> View() == old(View()) && !closed && !Admits(capacity, View(), desired, speculation)
      ensures answer == Some(false) ==> View() == old(View()) && closed
      ensures answer == Some(true) ==>
                old(Admits(capacity, View(), desired, speculation)) && View() == Admitted(old(View()), speculation, now)
    {
      var cap := Min(Min(Max(desired, 1), capacity), processingCap);
      if closed { return Some(false); }
      if active < cap && (!speculation || speculative < cap / SPECULATIVE_SHARE_DIVISOR) {
        if processingStarted.None? { processingStarted := Some(now); }
        active := active + 1;
        if speculation { speculative := speculative + 1; }
        return Some(true);
      }
      answer := None;
    }

    /** Whether queued reads are to be woken. */
    method Observe(o: Sample) returns (wake: bool)
      modifies this
      ensures View() == Observed(capacity, old(View()), o)
      ensures wake <==> WindowFull(Sampled(old(View()), o))
    {
      if processingStarted.None? { processingStarted := Some(o.now); }
      var started := processingStarted.value;
      processingTime := processingTime + o.processing;
      processingSamples := processingSamples + 1;
      if Max(o.processing, o.delay) > PROCESSING_TARGET { slowSamples := slowSamples + 1; }
      if processingSamples < PROCESSING_WINDOW_SAMPLES { return false; }
      var busy := processingTime > Elapsed(started, o.now) / 2;
      if busy && slowSamples >= 2 {
        processingCap := Max(Max(Min(o.desired, processingCap), 1) / 2, 1);
      } else {
        processingCap := Min(processingCap + 1, capacity);
      }
      processingStarted := if active > 1 then Some(o.now) else None;
      processingTime, processingSamples, slowSamples := 0, 0, 0;
      wake := true;
    }

    method Release(speculation: bool)
      requires active > 0 && (speculation ==> speculative > 0)
      modifies this
      ensures View() == Released(old(View()), speculation)
    {
      active := active - 1;
      if speculation { speculative := speculative - 1; }
    }
  }

  // What admission and observation keep

  lemma AdmittedBounded(capacity: nat, b: Budget, desired: nat, speculative: bool, now: nat)
    requires Bounded(capacity, b) && Admits(capacity, b, desired, speculative)
    ensures Bounded(capacity, Admitted(b, speculative, now))
    ensures Admitted(b, speculative, now).active <= Limit(capacity, b, desired)
    ensures speculative ==>
              Admitted(b, true, now).speculative <= Limit(capacity, b, desired) / SPECULATIVE_SHARE_DIVISOR
  {
  }

  lemma ObservedBounded(capacity: nat, b: Budget, o: Sample)
    requires Bounded(capacity, b)
    ensures Bounded(capacity, Observed(capacity, b, o))
    ensures !WindowFull(Sampled(b, o)) ==> Observed(capacity, b, o).processingCap == b.processingCap
    ensures Observed(capacity, b, o).processingCap <= b.processingCap + 1
  {
  }

  function AllObserved(capacity: nat, b: Budget, samples: seq<Sample>): Budget
    decreases |samples|
  {
    if samples == [] then b else AllObserved(capacity, Observed(capacity, b, samples[0]), samples[1..])
  }

  /** The cap moves only at the end of a window: whatever is observed, a run of
      observations that does not fill the window leaves it as it was. */
  lemma {:induction false} CapHoldsWithinWindow(capacity: nat, b: Budget, samples: seq<Sample>)
    requires Bounded(capacity, b) && b.processingSamples + |samples| < PROCESSING_WINDOW_SAMPLES
    ensures AllObserved(capacity, b, samples).processingCap == b.processingCap
    decreases |samples|
  {
    if samples != [] {
      ObservedBounded(capacity, b, samples[0]);
      CapHoldsWithinWindow(capacity, Observed(capacity, b, samples[0]), samples[1..]);
    }
  }

  // The protocol: readers, permits and the watch channel

  type Reader = nat

  /** A queued read, with the version of the watch channel it has seen and what it
      last read of `desired` and `speculative`. */
  datatype Pc =
    | Ready(seen: nat)
    | Evaluating(seen: nat, desired: nat, speculative: bool)
    | Waiting(seen: nat, desired: nat, speculative: bool)
    | Leaving

  /** `queue` holds the queued reads, `ordinary` and `speculators` the readers with
      a live permit, `unawaited` the readers no caller waits for. `pending` counts
      the changes made whose notification is still to be sent. */
  datatype State = State(
    b: Budget,
    version: nat,
    pending: nat,
    queue: map<Reader, Pc>,
    ordinary: set<Reader>,
    speculators: set<Reader>,
    unawaited: set<Reader>)

  function Init(capacity: nat): State {
    State(Empty(capacity), 0, 0, map[], {}, {}, {})
  }

  datatype Label =
    /** Subscribe, when the channel stood at `seen`, and queue. */
    | Enqueue(r: Reader, seen: nat, speculative: bool)
    | Read(r: Reader, desired: nat)
    | Evaluate(r: Reader, now: nat)
    | Wake(r: Reader)
    | Cancel(r: Reader)
    | Unqueue(r: Reader)
    | Release(r: Reader)
    | Observe(o: Sample)
    | Close
    /** A caller comes to wait for the read, and is about to notify. */
    | Promote(r: Reader)
    /** No caller waits for the read any more; nobody is told. */
    | Demote(r: Reader)
    | Notify
    | Send

  predicate Enabled(s: State, l: Label) {
    match l
    case Enqueue(r, seen, _) => r !in s.queue && r !in s.ordinary && r !in s.speculators && seen <= s.version
    case Read(r, _) => r in s.queue && s.queue[r].Ready?
    case Evaluate(r, _) => r in s.queue && s.queue[r].Evaluating?
    case Wake(r) => r in s.queue && s.queue[r].Waiting? && s.queue[r].seen < s.version
    case Cancel(r) => r in s.queue && s.queue[r].Waiting? && s.b.queued > 0
    case Unqueue(r) => r in s.queue && s.queue[r].Leaving? && s.b.queued > 0
    case Release(r) =>
      && (r in s.ordinary || r in s.speculators) && s.b.active > 0
      && (r in s.speculators ==> s.b.speculative > 0)
    case Observe(_) => true
    case Close => true
    case Promote(r) => r in s.unawaited
    case Demote(r) => r !in s.unawaited
    case Notify => true
    case Send => s.pending > 0
  }

  function Go(s: State, r: Reader, pc: Pc): State {
    s.(queue := s.queue[r := pc])
  }

  function Granted(s: State, r: Reader, speculative: bool, now: nat): State {
    s.(b := Admitted(s.b, speculative, now),
       queue := s.queue[r := Leaving],
       ordinary := if speculative then s.ordinary else s.ordinary + {r},
       speculators := if speculative then s.speculators + {r} else s.speculators)
  }

  function Evaluated(capacity: nat, s: State, r: Reader, now: nat): State
    requires r in s.queue && s.queue[r].Evaluating?
  {
    var pc := s.queue[r];
    if s.b.closed then Go(s, r, Leaving)
    else if Admits(capacity, s.b, pc.desired, pc.speculative) then Granted(s, r, pc.speculative, now)
    else Go(s, r, Waiting(pc.seen, pc.desired, pc.speculative))
  }

  function Dequeued(s: State, r: Reader): State
    requires s.b.queued > 0
  {
    s.(b := s.b.(queued := s.b.queued - 1), queue := s.queue - {r})
  }

  function Apply(capacity: nat, s: State, l: Label): State
    requires Enabled(s, l)
  {
    match l
    case Enqueue(r, seen, speculative) =>
      s.(b := s.b.(queued := s.b.queued + 1), queue := s.queue[r := Ready(seen)],
         unawaited := if speculative then s.unawaited + {r} else s.unawaited - {r})
    case Read(r, desired) => Go(s, r, Evaluating(s.queue[r].seen, desired, r in s.unawaited))
    case Evaluate(r, now) => Evaluated(capacity, s, r, now)
    case Wake(r) => Go(s, r, Ready(s.version))
    case Cancel(r) => Dequeued(s, r)
    case Unqueue(r) => Dequeued(s, r)
    case Release(r) =>
      s.(b := Released(s.b, r in s.speculators), pending := s.pending + 1,
         ordinary := s.ordinary - {r}, speculators := s.speculators - {r})
    case Observe(o) =>
      s.(b := Observed(capacity, s.b, o), pending := s.pending + if WindowFull(Sampled(s.b, o)) then 1 else 0)
    case Close => s.(b := s.b.(closed := true), pending := s.pending + 1)
    case Promote(r) => s.(unawaited := s.unawaited - {r}, pending := s.pending + 1)
    case Demote(r) => s.(unawaited := s.unawaited + {r})
    case Notify => s.(version := s.version + 1)
    case Send => s.(pending := s.pending - 1, version := s.version + 1)
  }

  function After(capacity: nat, labels: seq<Label>): Option<State> {
    if labels == [] then Some(Init(capacity))
    else
      var s := After(capacity, labels[..|labels| - 1]);
      var l := labels[|labels| - 1];
      if s.Some? && Enabled(s.value, l) then Some(Apply(capacity, s.value, l)) else None
  }

  ghost predicate Reachable(capacity: nat, s: State) {
    exists labels :: After(capacity, labels) == Some(s)
  }

  /** The counters count the live permits and queued reads. */
  ghost predicate Counted(s: State) {
    && s.b.active == |s.ordinary| + |s.speculators|
    && s.b.speculative == |s.speculators|
    && s.b.queued == |s.queue|
    && (forall r :: r in s.ordinary ==> r !in s.speculators)
    && (forall r :: r in s.queue && !s.queue[r].Leaving? ==> r !in s.ordinary && r !in s.speculators)
  }

  /** A wake-up is on its way to a read that has seen version `seen`. */
  predicate Woken(s: State, seen: nat) {
    seen < s.version || s.pending > 0
  }

  /** Whatever a queued read relies on still holds, or it will be woken. */
  ghost predicate ReadOk(capacity: nat, s: State, r: Reader)
    requires r in s.queue
  {
    match s.queue[r]
    case Ready(seen) => seen <= s.version
    case Evaluating(seen, _, speculative) =>
      seen <= s.version && ((speculative ==> r in s.unawaited) || Woken(s, seen))
    case Waiting(seen, desired, speculative) =>
      && seen <= s.version
      && ((speculative ==> r in s.unawaited) || Woken(s, seen))
      && (s.b.closed || Admits(capacity, s.b, desired, speculative) ==> Woken(s, seen))
    case Leaving => true
  }

  ghost predicate AllReadsOk(capacity: nat, s: State) {
    forall r :: r in s.queue ==> ReadOk(capacity, s, r)
  }

  ghost predicate Inv(capacity: nat, s: State) {
    Bounded(capacity, s.b) && Counted(s) && AllReadsOk(capacity, s)
  }

  lemma StepBounded(capacity: nat, s: State, l: Label)
    requires Enabled(s, l) && Bounded(capacity, s.b) && Counted(s)
    ensures Bounded(capacity, Apply(capacity, s, l).b)
  {
    match l
    case Evaluate(r, now) =>
      if Admits(capacity, s.b, s.queue[r].desired, s.queue[r].speculative) {
        AdmittedBounded(capacity, s.b, s.queue[r].desired, s.queue[r].speculative, now);
      }
    case Observe(o) => ObservedBounded(capacity, s.b, o);
    case Release(r) =>
      assert r in s.ordinary ==> s.ordinary != {};
      assert s.b.active == |s.ordinary| + |s.speculators|;
    case _ =>
  }

  lemma RemoveCounts(s: State, r: Reader)
    requires r in s.queue
    ensures |s.queue - {r}| == |s.queue| - 1
  {
    assert (s.queue - {r}).Keys == s.queue.Keys - {r};
    assert |s.queue| == |s.queue.Keys| && |s.queue - {r}| == |(s.queue - {r}).Keys|;
  }

  lemma SetCounts(s: State, r: Reader, pc: Pc)
    ensures |s.queue[r := pc]| == |s.queue| + if r in s.queue then 0 else 1
  {
    assert s.queue[r := pc].Keys == s.queue.Keys + {r};
    assert |s.queue| == |s.queue.Keys| && |s.queue[r := pc]| == |s.queue[r := pc].Keys|;
  }

  lemma GrantedCounted(s: State, r: Reader, speculative: bool, now: nat)
    requires r in s.queue && !s.queue[r].Leaving? && Counted(s)
    ensures Counted(Granted(s, r, speculative, now))
  {
    SetCounts(s, r, Leaving);
    assert r !in s.ordinary && r !in s.speculators;
    assert |s.ordinary + {r}| == |s.ordinary| + 1;
    assert |s.speculators + {r}| == |s.speculators| + 1;
  }

  lemma GoCounted(s: State, r: Reader, pc: Pc)
    requires r in s.queue && !s.queue[r].Leaving? && Counted(s)
    ensures Counted(Go(s, r, pc))
  {
    SetCounts(s, r, pc);
  }

  lemma EvaluateCounted(capacity: nat, s: State, r: Reader, now: nat)
    requires Enabled(s, Evaluate(r, now)) && Counted(s)
    ensures Counted(Apply(capacity, s, Evaluate(r, now)))
  {
    hide Counted, Granted, Go;
    var pc := s.queue[r];
    GrantedCounted(s, r, pc.speculative, now);
    GoCounted(s, r, Leaving);
    GoCounted(s, r, Waiting(pc.seen, pc.desired, pc.speculative));
  }

  lemma QueueCounted(capacity: nat, s: State, l: Label)
    requires Enabled(s, l) && Counted(s) && (l.Cancel? || l.Unqueue? || l.Read? || l.Wake?)
    ensures Counted(Apply(capacity, s, l))
  {
    match l
    case Read(r, desired) => GoCounted(s, r, Evaluating(s.queue[r].seen, desired, r in s.unawaited));
    case Wake(r) => GoCounted(s, r, Ready(s.version));
    case Cancel(r) => RemoveCounts(s, r);
    case Unqueue(r) => RemoveCounts(s, r);
  }

  lemma EnqueueCounted(capacity: nat, s: State, r: Reader, seen: nat, speculative: bool)
    requires Enabled(s, Enqueue(r, seen, speculative)) && Counted(s)
    ensures Counted(Apply(capacity, s, Enqueue(r, seen, speculative)))
  {
    SetCounts(s, r, Ready(seen));
  }

  lemma ReleaseCounted(capacity: nat, s: State, r: Reader)
    requires Enabled(s, Release(r)) && Counted(s)
    ensures Counted(Apply(capacity, s, Release(r)))
  {
  }

  lemma StepCounted(capacity: nat, s: State, l: Label)
    requires Enabled(s, l) && Counted(s)
    ensures Counted(Apply(capacity, s, l))
  {
    match l
    case Enqueue(r, seen, speculative) => hide Counted; EnqueueCounted(capacity, s, r, seen, speculative);
    case Evaluate(r, now) => hide Counted; EvaluateCounted(capacity, s, r, now);
    case Release(r) => hide Counted; ReleaseCounted(capacity, s, r);
    case Read(_, _) => hide Counted; QueueCounted(capacity, s, l);
    case Wake(_) => hide Counted; QueueCounted(capacity, s, l);
    case Cancel(_) => hide Counted; QueueCounted(capacity, s, l);
    case Unqueue(_) => hide Counted; QueueCounted(capacity, s, l);
    case _ =>
  }

  /** A permit taken never makes another read admissible. */
  lemma AdmitsAntitone(capacity: nat, b: Budget, speculative: bool, now: nat, desired: nat, other: bool)
    requires Admits(capacity, Admitted(b, speculative, now), desired, other)
    ensures Admits(capacity, b, desired, other)
  {
    var cap := Limit(capacity, b, desired);
    assert cap == Limit(capacity, Admitted(b, speculative, now), desired);
  }

  /** Neither does an observation that does not end a window. */
  lemma SampleKeepsAdmission(capacity: nat, b: Budget, o: Sample, desired: nat, other: bool)
    requires !WindowFull(Sampled(b, o))
    ensures Admits(capacity, Observed(capacity, b, o), desired, other) == Admits(capacity, b, desired, other)
  {
  }

  lemma OthersRead(capacity: nat, s: State, l: Label, r: Reader)
    requires Enabled(s, l) && r in s.queue && ReadOk(capacity, s, r)
    requires l.Observe? || l.Close? || l.Promote? || l.Demote? || l.Notify? || l.Send? || l.Release?
    ensures ReadOk(capacity, Apply(capacity, s, l), r)
  {
    match l
    case Observe(o) =>
      if s.queue[r].Waiting? && !WindowFull(Sampled(s.b, o)) {
        SampleKeepsAdmission(capacity, s.b, o, s.queue[r].desired, s.queue[r].speculative);
      }
    case _ =>
  }

  lemma EvaluateRead(capacity: nat, s: State, x: Reader, now: nat, r: Reader)
    requires Enabled(s, Evaluate(x, now)) && r in s.queue && ReadOk(capacity, s, r)
    ensures ReadOk(capacity, Apply(capacity, s, Evaluate(x, now)), r)
  {
    var t := Apply(capacity, s, Evaluate(x, now));
    if r != x && s.queue[r].Waiting? && t.b != s.b {
      if Admits(capacity, t.b, s.queue[r].desired, s.queue[r].speculative) {
        AdmitsAntitone(capacity, s.b, s.queue[x].speculative, now, s.queue[r].desired, s.queue[r].speculative);
      }
    }
  }

  lemma StepRead(capacity: nat, s: State, l: Label, r: Reader)
    requires Enabled(s, l) && AllReadsOk(capacity, s) && r in Apply(capacity, s, l).queue
    ensures ReadOk(capacity, Apply(capacity, s, l), r)
  {
    match l
    case Evaluate(x, now) => EvaluateRead(capacity, s, x, now, r);
    case Enqueue(_, _, _) =>
    case Read(_, _) =>
    case Wake(_) =>
    case Cancel(_) =>
    case Unqueue(_) =>
    case _ => OthersRead(capacity, s, l, r);
  }

  lemma StepKeeps(capacity: nat, s: State, l: Label)
    requires Enabled(s, l) && Inv(capacity, s)
    ensures Inv(capacity, Apply(capacity, s, l))
  {
    hide Counted, Bounded, ReadOk, Apply;
    StepBounded(capacity, s, l);
    StepCounted(capacity, s, l);
    forall r | r in Apply(capacity, s, l).queue
      ensures ReadOk(capacity, Apply(capacity, s, l), r)
    {
      StepRead(capacity, s, l, r);
    }
  }

  lemma {:induction false} RunKeeps(capacity: nat, labels: seq<Label>)
    requires capacity >= 1 && After(capacity, labels).Some?
    ensures Inv(capacity, After(capacity, labels).value)
    decreases |labels|
  {
    if labels != [] {
      RunKeeps(capacity, labels[..|labels| - 1]);
      StepKeeps(capacity, After(capacity, labels[..|labels| - 1]).value, labels[|labels| - 1]);
    }
  }

  lemma ReachableInv(capacity: nat, s: State)
    requires capacity >= 1 && Reachable(capacity, s)
    ensures Inv(capacity, s)
  {
    var labels :| After(capacity, labels) == Some(s);
    RunKeeps(capacity, labels);
  }

  // What holds in every reachable state

  /** The counters are the live permits and queued reads, speculative permits stay
      within their share, and the processing cap within its range. */
  lemma PermitsCounted(capacity: nat, s: State)
    requires capacity >= 1 && Reachable(capacity, s)
    ensures s.b.active == |s.ordinary + s.speculators| && s.b.speculative == |s.speculators|
    ensures s.b.queued == |s.queue|
    ensures s.b.active <= capacity && s.b.speculative <= capacity / SPECULATIVE_SHARE_DIVISOR
    ensures 1 <= s.b.processingCap <= capacity
  {
    ReachableInv(capacity, s);
    assert s.ordinary !! s.speculators;
  }

  /** The reservations of all live permits stay within the byte budget, or there is
      but one. */
  lemma ReservedWithinBudget(maxBytes: nat, reservationBytes: nat, s: State)
    requires Reachable(Capacity(maxBytes, reservationBytes), s)
    ensures var live := |s.ordinary + s.speculators|; live * reservationBytes <= maxBytes || live <= 1
  {
    hide Reachable, Capacity;
    CapacityAtLeastOne(maxBytes, reservationBytes);
    PermitsCounted(Capacity(maxBytes, reservationBytes), s);
    CapacityFits(maxBytes, reservationBytes, |s.ordinary + s.speculators|);
  }

  lemma CapacityAtLeastOne(maxBytes: nat, reservationBytes: nat)
    ensures Capacity(maxBytes, reservationBytes) >= 1
  {
  }

  lemma CapacityFits(maxBytes: nat, reservationBytes: nat, live: nat)
    requires live <= Capacity(maxBytes, reservationBytes)
    ensures live * reservationBytes <= maxBytes || live <= 1
  {
    var each := Max(reservationBytes, 1);
    var n := maxBytes / each;
    if live > 1 {
      assert live * each <= n * each <= maxBytes;
      assert live * reservationBytes <= live * each;
    }
  }

  /** Dropping a permit or a queued read never takes a counter below zero. */
  lemma DropsNeverUnderflow(capacity: nat, s: State, r: Reader)
    requires capacity >= 1 && Reachable(capacity, s)
    ensures r in s.ordinary || r in s.speculators ==> Enabled(s, Release(r))
    ensures r in s.queue && s.queue[r].Waiting? ==> Enabled(s, Cancel(r))
    ensures r in s.queue && s.queue[r].Leaving? ==> Enabled(s, Unqueue(r))
  {
    ReachableInv(capacity, s);
    assert r in s.ordinary ==> |s.ordinary| > 0;
    assert r in s.speculators ==> |s.speculators| > 0;
    assert r in s.queue ==> |s.queue| > 0;
  }

  /** No queued read sleeps through a change that would admit it, or through the
      close: it can wake now, or a change has yet to be announced and announcing
      it lets it wake. */
  lemma NoLostWakeup(capacity: nat, s: State, r: Reader)
    requires capacity >= 1 && Reachable(capacity, s)
    requires r in s.queue && s.queue[r].Waiting?
    requires s.b.closed || Admits(capacity, s.b, s.queue[r].desired, r in s.unawaited)
    ensures Enabled(s, Wake(r)) || (Enabled(s, Send) && Enabled(Apply(capacity, s, Send), Wake(r)))
  {
    ReachableInv(capacity, s);
    assert ReadOk(capacity, s, r);
  }

  /** With no permit out, no awaited read is left asleep, whatever it desired. */
  lemma IdleAdmitsAwaited(capacity: nat, s: State, r: Reader)
    requires capacity >= 1 && Reachable(capacity, s)
    requires r in s.queue && s.queue[r].Waiting? && r !in s.unawaited
    requires s.ordinary == {} && s.speculators == {}
    ensures Enabled(s, Wake(r)) || (Enabled(s, Send) && Enabled(Apply(capacity, s, Send), Wake(r)))
  {
    ReachableInv(capacity, s);
    NoLostWakeup(capacity, s, r);
  }

  // The speculative share

  /** The documented share: speculative reads hold at most half of the read cap. */
  predicate InShare(b: Budget) {
    b.speculative <= b.processingCap / SPECULATIVE_SHARE_DIVISOR
  }

  /** It is exactly what leaves awaited reads the rest of the cap: while fewer than
      the rest hold permits, a read that desires the whole cap gets one. */
  lemma ShareLeavesTheRest(capacity: nat, b: Budget)
    requires Bounded(capacity, b) && !b.closed
    ensures InShare(b) <==>
              forall awaited: nat :: awaited < b.processingCap - b.processingCap / SPECULATIVE_SHARE_DIVISOR ==>
                Admits(capacity, WithAwaited(b, awaited), b.processingCap, false)
  {
    var rest := b.processingCap - b.processingCap / SPECULATIVE_SHARE_DIVISOR;
    if !InShare(b) {
      assert !Admits(capacity, WithAwaited(b, rest - 1), b.processingCap, false);
    }
  }

  /** The budget with this many awaited reads beside its speculative ones. */
  function WithAwaited(b: Budget, awaited: nat): Budget {
    b.(active := b.speculative + awaited)
  }

  /** An observation that fills the window and lowers the cap under what the
      speculative permits already out take of it. */
  predicate BreaksShare(capacity: nat, b: Budget, l: Label) {
    && l.Observe? && WindowFull(Sampled(b, l.o))
    && b.speculative > NextCap(capacity, Sampled(b, l.o), l.o) / SPECULATIVE_SHARE_DIVISOR
  }

  /** A step leaves speculative reads within their share if and only if it is not
      such an observation. */
  lemma ShareKeptIff(capacity: nat, s: State, l: Label)
    requires Enabled(s, l) && InShare(s.b)
    ensures InShare(Apply(capacity, s, l).b) <==> !BreaksShare(capacity, s.b, l)
  {
  }

  /** The states a run passes through are all within the share. */
  ghost predicate AlwaysInShare(capacity: nat, labels: seq<Label>)
    requires After(capacity, labels).Some?
  {
    InShare(After(capacity, labels).value.b)
    && (labels == [] || AlwaysInShare(capacity, labels[..|labels| - 1]))
  }

  /** Some observation of the run breaks the share. */
  ghost predicate SomeBreaksShare(capacity: nat, labels: seq<Label>)
    requires After(capacity, labels).Some?
  {
    labels != [] &&
    (|| SomeBreaksShare(capacity, labels[..|labels| - 1])
     || BreaksShare(capacity, After(capacity, labels[..|labels| - 1]).value.b, labels[|labels| - 1]))
  }

  /** Speculative reads stay within their share for a whole run if and only if no
      observation in it breaks the share. */
  lemma {:induction false} RunInShareIff(capacity: nat, labels: seq<Label>)
    requires After(capacity, labels).Some?
    ensures AlwaysInShare(capacity, labels) <==> !SomeBreaksShare(capacity, labels)
    decreases |labels|
  {
    if labels != [] {
      var before := labels[..|labels| - 1];
      RunInShareIff(capacity, before);
      hide Apply, Enabled, InShare, BreaksShare;
      if AlwaysInShare(capacity, before) {
        ShareKeptIff(capacity, After(capacity, before).value, labels[|labels| - 1]);
      }
    }
  }

  /** Even out of its share, speculation leaves an awaited read room while its limit
      is above half the capacity. */
  lemma SpeculationLeavesRoom(capacity: nat, s: State, desired: nat)
    requires capacity >= 1 && Reachable(capacity, s) && s.ordinary == {} && !s.b.closed
    requires Limit(capacity, s.b, desired) > capacity / SPECULATIVE_SHARE_DIVISOR
    ensures Admits(capacity, s.b, desired, false)
  {
    PermitsCounted(capacity, s);
    assert s.ordinary + s.speculators == s.speculators;
  }

  // A run that leaves the share

  lemma AfterOneMore(capacity: nat, labels: seq<Label>, s: State, l: Label)
    requires After(capacity, labels) == Some(s) && Enabled(s, l)
    ensures After(capacity, labels + [l]) == Some(Apply(capacity, s, l))
  {
    assert (labels + [l])[..|labels + [l]| - 1] == labels;
  }

  /** A speculative read queues, is evaluated and holds a permit. */
  function Speculated(capacity: nat): State {
    State(Admitted(Empty(capacity).(queued := 1), true, 0), 0, 0, map[0 := Leaving], {}, {0}, {0})
  }

  lemma SpeculationAdmitted(capacity: nat)
    requires capacity >= 2
    ensures After(capacity, [Enqueue(0, 0, true)] + [Read(0, 2)] + [Evaluate(0, 0)]) == Some(Speculated(capacity))
  {
    var none := Init(capacity);
    var queued := none.(b := none.b.(queued := 1), queue := map[0 := Ready(0)], unawaited := {0});
    var read := queued.(queue := map[0 := Evaluating(0, 2, true)]);
    AfterOneMore(capacity, [], none, Enqueue(0, 0, true));
    assert [] + [Enqueue(0, 0, true)] == [Enqueue(0, 0, true)];
    assert Apply(capacity, none, Enqueue(0, 0, true)) == queued;
    hide After;
    AfterOneMore(capacity, [Enqueue(0, 0, true)], queued, Read(0, 2));
    assert queued.queue[0 := Evaluating(0, 2, true)] == read.queue;
    AfterOneMore(capacity, [Enqueue(0, 0, true)] + [Read(0, 2)], read, Evaluate(0, 0));
    assert read.queue[0 := Leaving] == map[0 := Leaving];
    assert Admits(capacity, read.b, 2, true);
  }

  /** A slow response seen by a caller that desires one read at a time. */
  function Slow(now: nat): Sample {
    Sample(80_000_000, 0, 1, now)
  }

  /** `n` slow observations. */
  function SlowFor(labels: seq<Label>, n: nat): seq<Label> {
    if n == 0 then labels else SlowFor(labels, n - 1) + [Observe(Slow(n))]
  }

  lemma {:induction false} SlowWithinWindow(capacity: nat, labels: seq<Label>, s: State, n: nat)
    requires After(capacity, labels) == Some(s) && n < 8
    requires s.b.processingSamples == s.b.slowSamples == s.b.processingTime == 0 && s.b.processingStarted == Some(0)
    ensures After(capacity, SlowFor(labels, n)) ==
              Some(s.(b := s.b.(processingSamples := n, slowSamples := n, processingTime := n * 80_000_000)))
  {
    hide After;
    if n > 0 {
      SlowWithinWindow(capacity, labels, s, n - 1);
      var b := s.b.(processingSamples := n - 1, slowSamples := n - 1, processingTime := (n - 1) * 80_000_000);
      AfterOneMore(capacity, SlowFor(labels, n - 1), s.(b := b), Observe(Slow(n)));
    }
  }

  /** A speculative read is admitted, and a window of slow processing lowers the cap
      to one. */
  function Overloaded(): seq<Label> {
    SlowFor([Enqueue(0, 0, true)] + [Read(0, 2)] + [Evaluate(0, 0)], 8)
  }

  /** Under every capacity of two or more this run leaves speculation outside its
      share, and an awaited read that comes then is not admitted, whatever it
      desires, though only a speculative read holds a permit. */
  lemma SpeculationMayFillTheCap(capacity: nat) returns (s: State)
    requires capacity >= 2
    ensures After(capacity, Overloaded()) == Some(s)
    ensures !InShare(s.b) && s.ordinary == {} && !s.b.closed
    ensures forall desired :: !Admits(capacity, s.b, desired, false)
  {
    hide After;
    var begun := [Enqueue(0, 0, true)] + [Read(0, 2)] + [Evaluate(0, 0)];
    var one := Speculated(capacity);
    SpeculationAdmitted(capacity);
    SlowWithinWindow(capacity, begun, one, 7);
    var b := one.b.(processingSamples := 7, slowSamples := 7, processingTime := 560_000_000);
    AfterOneMore(capacity, SlowFor(begun, 7), one.(b := b), Observe(Slow(8)));
    s := Apply(capacity, one.(b := b), Observe(Slow(8)));
    assert s.b.processingCap == 1 && s.b.active == s.b.speculative == 1;
  }

  /** So the share can be left if and only if the budget admits two reads at once:
      with room for one, no speculative read is ever admitted. */
  lemma ShareCanBeLeftIff(capacity: nat)
    requires capacity >= 1
    ensures (exists s :: Reachable(capacity, s) && !InShare(s.b)) <==> capacity >= 2
  {
    if capacity >= 2 {
      var s := SpeculationMayFillTheCap(capacity);
      assert Reachable(capacity, s);
    } else {
      forall s | Reachable(capacity, s)
        ensures InShare(s.b)
      {
        PermitsCounted(capacity, s);
      }
    }
  }
}
