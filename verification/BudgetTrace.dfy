/** When reads are admitted and how the read cap moves, said from the observations
    and permits of a run and not from the budget's counters. */
module BudgetTrace {
  import opened Prelude
  import opened ReadBudget

  // Admission

  function Live(s: State): nat {
    |s.ordinary + s.speculators|
  }

  function HasPermit(s: State, r: Reader): bool {
    r in s.ordinary || r in s.speculators
  }

  ghost predicate Closed(labels: seq<Label>) {
    exists i :: 0 <= i < |labels| && labels[i].Close?
  }

  lemma {:induction false} ClosedExact(capacity: nat, labels: seq<Label>)
    requires After(capacity, labels).Some?
    ensures After(capacity, labels).value.b.closed <==> Closed(labels)
    decreases |labels|
  {
    if labels != [] {
      var before := labels[..|labels| - 1];
      ClosedExact(capacity, before);
      assert Closed(labels) <==> Closed(before) || labels[|labels| - 1].Close?;
      ClosedStep(capacity, After(capacity, before).value, labels[|labels| - 1]);
    }
  }

  lemma ClosedStep(capacity: nat, s: State, l: Label)
    requires Enabled(s, l)
    ensures Apply(capacity, s, l).b.closed <==> s.b.closed || l.Close?
  {
  }

  /** What each queued read last desired, and whether nobody awaited it then, with
      the reads nobody awaits now. */
  datatype Asked = Asked(desires: map<Reader, (nat, bool)>, unawaited: set<Reader>)

  function Hear(x: Asked, l: Label): Asked {
    match l
    case Enqueue(r, _, speculative) =>
      x.(unawaited := if speculative then x.unawaited + {r} else x.unawaited - {r})
    case Read(r, desired) => x.(desires := x.desires[r := (desired, r in x.unawaited)])
    case Promote(r) => x.(unawaited := x.unawaited - {r})
    case Demote(r) => x.(unawaited := x.unawaited + {r})
    case _ => x
  }

  function AskedBy(labels: seq<Label>): Asked {
    if labels == [] then Asked(map[], {}) else Hear(AskedBy(labels[..|labels| - 1]), labels[|labels| - 1])
  }

  ghost predicate AsksAgree(s: State, x: Asked) {
    && s.unawaited == x.unawaited
    && forall r :: r in s.queue ==>
         match s.queue[r]
         case Evaluating(_, desired, speculative) => r in x.desires && x.desires[r] == (desired, speculative)
         case Waiting(_, desired, speculative) => r in x.desires && x.desires[r] == (desired, speculative)
         case _ => true
  }

  lemma AskStep(capacity: nat, s: State, x: Asked, l: Label)
    requires Enabled(s, l) && AsksAgree(s, x)
    ensures AsksAgree(Apply(capacity, s, l), Hear(x, l))
  {
    hide Admits, Observed, Admitted, Released;
  }

  lemma {:induction false} RunAsks(capacity: nat, labels: seq<Label>)
    requires After(capacity, labels).Some?
    ensures AsksAgree(After(capacity, labels).value, AskedBy(labels))
    decreases |labels|
  {
    if labels != [] {
      hide Apply, Enabled, AsksAgree, Hear;
      var before := labels[..|labels| - 1];
      RunAsks(capacity, before);
      AskStep(capacity, After(capacity, before).value, AskedBy(before), labels[|labels| - 1]);
    } else {
      assert AsksAgree(Init(capacity), AskedBy([]));
    }
  }

  /** A read that evaluates its admission gets a permit exactly when the budget was
      not closed, fewer permits are out than it desires, than the byte budget admits
      and than the read cap, and, if nobody awaited it when it asked, speculative
      permits with its own stay within half of each of these. */
  lemma AdmissionExact(capacity: nat, labels: seq<Label>, r: Reader, now: nat)
    requires capacity >= 1 && After(capacity, labels).Some?
    requires Enabled(After(capacity, labels).value, Evaluate(r, now))
    ensures r in AskedBy(labels).desires
    ensures var s := After(capacity, labels).value;
      var (desired, speculative) := AskedBy(labels).desires[r];
      var cap, t := s.b.processingCap, Apply(capacity, s, Evaluate(r, now));
      && !HasPermit(s, r)
      && (HasPermit(t, r) <==>
            && !Closed(labels)
            && Live(s) < capacity && Live(s) < cap && (Live(s) == 0 || Live(s) < desired)
            && (speculative ==>
                  var more := 2 * (|s.speculators| + 1); more <= capacity && more <= cap && more <= desired))
      && (HasPermit(t, r) ==> Live(t) == Live(s) + 1 && (r in t.speculators <==> speculative))
      && r in t.queue && (t.queue[r].Leaving? || t.queue[r].Waiting?)
      && (t.queue[r].Leaving? <==> HasPermit(t, r) || Closed(labels))
  {
    RunKeeps(capacity, labels);
    RunAsks(capacity, labels);
    ClosedExact(capacity, labels);
    Admission(capacity, After(capacity, labels).value, r, now);
    hide After, AskedBy, Apply;
  }

  lemma Admission(capacity: nat, s: State, r: Reader, now: nat)
    requires capacity >= 1 && Inv(capacity, s) && Enabled(s, Evaluate(r, now))
    ensures var pc, cap := s.queue[r], s.b.processingCap;
      var t := Apply(capacity, s, Evaluate(r, now));
      && !HasPermit(s, r)
      && (HasPermit(t, r) <==>
            && !s.b.closed
            && Live(s) < capacity && Live(s) < cap && (Live(s) == 0 || Live(s) < pc.desired)
            && (pc.speculative ==>
                  var more := 2 * (|s.speculators| + 1); more <= capacity && more <= cap && more <= pc.desired))
      && (HasPermit(t, r) ==> Live(t) == Live(s) + 1 && (r in t.speculators <==> pc.speculative))
      && (!HasPermit(t, r) ==> Live(t) == Live(s) && t.b == s.b)
      && r in t.queue && (t.queue[r].Leaving? || t.queue[r].Waiting?)
      && (t.queue[r].Leaving? <==> HasPermit(t, r) || s.b.closed)
  {
    hide Admits, Apply, HasPermit, Live, Inv;
    Permit(capacity, s, r, now);
    AdmitsExact(capacity, s.b, s.queue[r].desired, s.queue[r].speculative);
  }

  lemma Permit(capacity: nat, s: State, r: Reader, now: nat)
    requires Inv(capacity, s) && Enabled(s, Evaluate(r, now))
    ensures var pc, t := s.queue[r], Apply(capacity, s, Evaluate(r, now));
      && Live(s) == s.b.active && |s.speculators| == s.b.speculative && s.b.processingCap >= 1
      && !HasPermit(s, r)
      && (HasPermit(t, r) <==> Admits(capacity, s.b, pc.desired, pc.speculative))
      && (HasPermit(t, r) ==> Live(t) == Live(s) + 1 && (r in t.speculators <==> pc.speculative))
      && (!HasPermit(t, r) ==> Live(t) == Live(s) && t.b == s.b)
      && r in t.queue && (t.queue[r].Leaving? || t.queue[r].Waiting?)
      && (t.queue[r].Leaving? <==> HasPermit(t, r) || s.b.closed)
  {
    hide AllReadsOk;
    var pc := s.queue[r];
    LiveCounted(s);
    assert !HasPermit(s, r) && s.b.processingCap >= 1;
    assert Admits(capacity, s.b, pc.desired, pc.speculative) ==> !s.b.closed;
    hide Admits, Counted, Bounded, Admitted, Live;
    OneMorePermit(s, Granted(s, r, pc.speculative, now), r);
    SamePermits(s, Go(s, r, Leaving));
    SamePermits(s, Go(s, r, Waiting(pc.seen, pc.desired, pc.speculative)));
  }

  lemma LiveCounted(s: State)
    requires Counted(s)
    ensures Live(s) == s.b.active && |s.speculators| == s.b.speculative
  {
    assert s.ordinary !! s.speculators;
  }

  lemma OneMorePermit(s: State, t: State, r: Reader)
    requires r !in s.ordinary && r !in s.speculators
    requires (t.ordinary == s.ordinary + {r} && t.speculators == s.speculators)
             || (t.ordinary == s.ordinary && t.speculators == s.speculators + {r})
    ensures Live(t) == Live(s) + 1
  {
    assert t.ordinary + t.speculators == s.ordinary + s.speculators + {r};
  }

  lemma SamePermits(s: State, t: State)
    requires t.ordinary == s.ordinary && t.speculators == s.speculators
    ensures Live(t) == Live(s)
  {
  }

  lemma AdmitsExact(capacity: nat, b: Budget, desired: nat, speculative: bool)
    requires capacity >= 1 && b.processingCap >= 1
    ensures Admits(capacity, b, desired, speculative) <==>
      && !b.closed && b.active < capacity && b.active < b.processingCap && (b.active == 0 || b.active < desired)
      && (speculative ==>
            var more := 2 * (b.speculative + 1); more <= capacity && more <= b.processingCap && more <= desired)
  {
  }

  /** The readers given a permit since they last queued. */
  function Served(capacity: nat, labels: seq<Label>): set<Reader>
    requires After(capacity, labels).Some?
  {
    if labels == [] then {}
    else
      var before, l := labels[..|labels| - 1], labels[|labels| - 1];
      var served, s, t := Served(capacity, before), After(capacity, before).value, After(capacity, labels).value;
      match l
      case Enqueue(r, _, _) => served - {r}
      case Evaluate(r, _) => if HasPermit(t, r) && !HasPermit(s, r) then served + {r} else served
      case _ => served
  }

  lemma LeavingStep(capacity: nat, s: State, l: Label, r: Reader)
    requires Inv(capacity, s) && Enabled(s, l) && r in Apply(capacity, s, l).queue
    requires Apply(capacity, s, l).queue[r].Leaving?
    ensures var t := Apply(capacity, s, l);
      || (l.Evaluate? && l.r == r && (s.b.closed || (HasPermit(t, r) && !HasPermit(s, r))))
      || (r in s.queue && s.queue[r].Leaving? && !(l.Enqueue? && l.r == r))
  {
    if l.Evaluate? && l.r == r { Permit(capacity, s, r, l.now); }
    hide Inv, Admits, HasPermit, Observed;
  }

  lemma ClosedStays(capacity: nat, s: State, l: Label)
    requires Enabled(s, l) && s.b.closed
    ensures Apply(capacity, s, l).b.closed
  {
  }

  /** A read leaves the queue by itself only with a permit, or after the close. */
  lemma {:induction false} LeavesServed(capacity: nat, labels: seq<Label>, r: Reader)
    requires After(capacity, labels).Some? && capacity >= 1
    requires var s := After(capacity, labels).value; r in s.queue && s.queue[r].Leaving?
    ensures After(capacity, labels).value.b.closed || r in Served(capacity, labels)
  {
    hide Apply, Enabled, HasPermit, Inv;
    if labels != [] {
      var before, l := labels[..|labels| - 1], labels[|labels| - 1];
      var s := After(capacity, before).value;
      RunKeeps(capacity, before);
      LeavingStep(capacity, s, l, r);
      if s.b.closed { ClosedStays(capacity, s, l); }
      if r in s.queue && s.queue[r].Leaving? && !(l.Enqueue? && l.r == r) { LeavesServed(capacity, before, r); }
    }
  }

  lemma LeavesOnlyServed(capacity: nat, labels: seq<Label>, r: Reader)
    requires After(capacity, labels).Some? && capacity >= 1
    requires Enabled(After(capacity, labels).value, Unqueue(r))
    ensures Closed(labels) || r in Served(capacity, labels)
  {
    LeavesServed(capacity, labels, r);
    ClosedExact(capacity, labels);
  }

  /** Every announcement lets every waiting read wake and ask again. */
  lemma AnnouncementWakes(capacity: nat, s: State, l: Label, r: Reader, desired: nat)
    requires Inv(capacity, s) && (l.Notify? || l.Send?) && Enabled(s, l) && r in s.queue && s.queue[r].Waiting?
    ensures var t := Apply(capacity, s, l);
      Enabled(t, Wake(r)) && Enabled(Apply(capacity, t, Wake(r)), Read(r, desired))
  {
    assert ReadOk(capacity, s, r);
  }

  // The read cap

  /** Every observation of a run, in order. */
  function Samples(labels: seq<Label>): seq<Sample> {
    if labels == [] then []
    else
      var before, l := labels[..|labels| - 1], labels[|labels| - 1];
      Samples(before) + if l.Observe? then [l.o] else []
  }

  function Total(samples: seq<Sample>): nat {
    if samples == [] then 0 else Total(samples[..|samples| - 1]) + samples[|samples| - 1].processing
  }

  /** How many responses took local processing, or held up the event loop, for more
      than 50 milliseconds. */
  function SlowCount(samples: seq<Sample>): nat {
    if samples == [] then 0
    else
      var o := samples[|samples| - 1];
      SlowCount(samples[..|samples| - 1]) + if o.processing > 50_000_000 || o.delay > 50_000_000 then 1 else 0
  }

  /** The window under way: its samples, when it began, and how many have ended. It
      begins with the first permit given or sample taken since the last one ended, or
      at that end if two or more permits were out then. */
  datatype Window = Window(samples: seq<Sample>, began: Option<nat>, ended: nat)

  function See(x: Window, s: State, l: Label, t: State): Window {
    match l
    case Observe(o) =>
      if |x.samples| < 7 then Window(x.samples + [o], Some(Start(x, o.now)), x.ended)
      else Window([], if Live(t) > 1 then Some(o.now) else None, x.ended + 1)
    case Evaluate(_, now) => if Live(s) < Live(t) then x.(began := Some(Start(x, now))) else x
    case _ => x
  }

  function Start(x: Window, now: nat): nat {
    if x.began.Some? then x.began.value else now
  }

  function WindowOf(capacity: nat, labels: seq<Label>): Window
    requires After(capacity, labels).Some?
  {
    if labels == [] then Window([], None, 0)
    else
      var before := labels[..|labels| - 1];
      See(WindowOf(capacity, before), After(capacity, before).value, labels[|labels| - 1],
          After(capacity, labels).value)
  }

  /** The windows are the samples of the run, eight at a time. */
  lemma {:induction false} WindowsAreSamples(capacity: nat, labels: seq<Label>)
    requires After(capacity, labels).Some?
    ensures var x := WindowOf(capacity, labels);
      |x.samples| < 8 && |Samples(labels)| == 8 * x.ended + |x.samples| && Samples(labels)[8 * x.ended..] == x.samples
  {
    hide Apply, Enabled;
    if labels != [] { WindowsAreSamples(capacity, labels[..|labels| - 1]); }
  }

  ghost predicate Agrees(b: Budget, x: Window) {
    && b.processingSamples == |x.samples| < 8
    && b.processingTime == Total(x.samples)
    && b.slowSamples == SlowCount(x.samples)
    && b.processingStarted == x.began
  }

  lemma Added(samples: seq<Sample>, o: Sample)
    ensures Total(samples + [o]) == Total(samples) + o.processing
    ensures SlowCount(samples + [o]) ==
              SlowCount(samples) + if o.processing > 50_000_000 || o.delay > 50_000_000 then 1 else 0
  {
    assert (samples + [o])[..|samples + [o]| - 1] == samples;
  }

  /** What an observation makes of the cap. */
  ghost predicate CapMoves(capacity: nat, x: Window, o: Sample, cap: nat, next: nat) {
    var all := x.samples + [o];
    next == if |all| < 8 then cap
            else if Overload(x, o) then Max(Min(o.desired, cap) / 2, 1)
            else Min(cap + 1, capacity)
  }

  /** More than half of the window's time went into processing, and two or more of
      its samples were slow. */
  predicate Overload(x: Window, o: Sample) {
    var all := x.samples + [o];
    |all| == 8 && 2 * Total(all) > Elapsed(Start(x, o.now), o.now) && SlowCount(all) >= 2
  }

  lemma ObserveAgrees(capacity: nat, s: State, x: Window, o: Sample)
    requires capacity >= 1 && Counted(s) && Agrees(s.b, x)
    ensures var t := Apply(capacity, s, Observe(o));
      Agrees(t.b, See(x, s, Observe(o), t)) && CapMoves(capacity, x, o, s.b.processingCap, t.b.processingCap)
  {
    Added(x.samples, o);
    assert s.ordinary !! s.speculators;
    assert Live(s) == |s.ordinary| + |s.speculators|;
  }

  lemma StepAgrees(capacity: nat, s: State, x: Window, l: Label)
    requires capacity >= 1 && Inv(capacity, s) && Enabled(s, l) && Agrees(s.b, x)
    ensures var t := Apply(capacity, s, l); Agrees(t.b, See(x, s, l, t))
    ensures !l.Observe? ==> Apply(capacity, s, l).b.processingCap == s.b.processingCap
  {
    hide Agrees;
    match l
    case Observe(o) => ObserveAgrees(capacity, s, x, o);
    case Evaluate(r, now) => EvaluateAgrees(capacity, s, x, r, now);
    case _ => SameAgrees(s.b, Apply(capacity, s, l).b, x);
  }

  lemma SameAgrees(b: Budget, d: Budget, x: Window)
    requires Agrees(b, x)
    requires d == b.(active := d.active, speculative := d.speculative, queued := d.queued, closed := d.closed)
    ensures Agrees(d, x)
  {
  }

  lemma EvaluateAgrees(capacity: nat, s: State, x: Window, r: Reader, now: nat)
    requires capacity >= 1 && Inv(capacity, s) && Enabled(s, Evaluate(r, now)) && Agrees(s.b, x)
    ensures var t := Apply(capacity, s, Evaluate(r, now));
      Agrees(t.b, See(x, s, Evaluate(r, now), t)) && t.b.processingCap == s.b.processingCap
  {
    Permit(capacity, s, r, now);
    hide Inv, Live, HasPermit, Admits;
  }

  lemma {:induction false} RunAgrees(capacity: nat, labels: seq<Label>)
    requires capacity >= 1 && After(capacity, labels).Some?
    ensures Agrees(After(capacity, labels).value.b, WindowOf(capacity, labels))
  {
    if labels != [] {
      hide Apply, Enabled, Agrees, Inv, See;
      var before := labels[..|labels| - 1];
      RunAgrees(capacity, before);
      RunKeeps(capacity, before);
      StepAgrees(capacity, After(capacity, before).value, WindowOf(capacity, before), labels[|labels| - 1]);
    } else {
      assert Agrees(Init(capacity).b, Window([], None, 0));
    }
  }

  /** At the eighth sample of a window the cap is halved, from the lesser of it and
      what the read desires and to one at least, exactly under overload, and is one
      more otherwise, up to the capacity. Nothing else moves it. */
  lemma CapExact(capacity: nat, labels: seq<Label>, l: Label)
    requires capacity >= 1 && After(capacity, labels).Some? && Enabled(After(capacity, labels).value, l)
    ensures var s, x := After(capacity, labels).value, WindowOf(capacity, labels);
      var next := Apply(capacity, s, l).b.processingCap;
      && (l.Observe? ==> CapMoves(capacity, x, l.o, s.b.processingCap, next))
      && (!l.Observe? ==> next == s.b.processingCap)
  {
    RunAgrees(capacity, labels);
    RunKeeps(capacity, labels);
    var s, x := After(capacity, labels).value, WindowOf(capacity, labels);
    hide Agrees, CapMoves, WindowOf, After;
    if l.Observe? { ObserveAgrees(capacity, s, x, l.o); } else { StepAgrees(capacity, s, x, l); }
  }

  /** The last label ends a window under overload. */
  ghost predicate EndsOverloaded(capacity: nat, labels: seq<Label>)
    requires After(capacity, labels).Some?
  {
    labels != [] && var before, l := labels[..|labels| - 1], labels[|labels| - 1];
      l.Observe? && Overload(WindowOf(capacity, before), l.o)
  }

  /** From its first `k` labels on the run ends no window under overload. */
  ghost predicate Healthy(capacity: nat, k: nat, labels: seq<Label>)
    requires After(capacity, labels).Some?
    decreases |labels|
  {
    k == |labels|
    || (k < |labels| && !EndsOverloaded(capacity, labels) && Healthy(capacity, k, labels[..|labels| - 1]))
  }

  lemma LastStep(capacity: nat, labels: seq<Label>)
    requires labels != [] && After(capacity, labels).Some?
    ensures var before, l := labels[..|labels| - 1], labels[|labels| - 1];
      && After(capacity, before).Some? && Enabled(After(capacity, before).value, l)
      && After(capacity, labels).value == Apply(capacity, After(capacity, before).value, l)
      && WindowOf(capacity, labels) ==
           See(WindowOf(capacity, before), After(capacity, before).value, l, After(capacity, labels).value)
  {
    hide Apply, Enabled, See;
  }

  /** One more label that ends no window under overload. */
  lemma HealthyStep(capacity: nat, labels: seq<Label>)
    requires capacity >= 1 && labels != [] && After(capacity, labels).Some? && !EndsOverloaded(capacity, labels)
    ensures After(capacity, labels[..|labels| - 1]).Some?
    ensures var before := labels[..|labels| - 1];
      var cap, next := After(capacity, before).value.b.processingCap, After(capacity, labels).value.b.processingCap;
      var x, y := WindowOf(capacity, before), WindowOf(capacity, labels);
      (y.ended == x.ended && next == cap) || (y.ended == x.ended + 1 && next == Min(cap + 1, capacity))
  {
    hide Apply, Enabled, Overload, Samples, After, WindowOf;
    var before, l := labels[..|labels| - 1], labels[|labels| - 1];
    LastStep(capacity, labels);
    CapExact(capacity, before, l);
    WindowsAreSamples(capacity, before);
  }

  /** Since `from` the cap has risen by one a window, up to the capacity. */
  ghost predicate Risen(capacity: nat, from: seq<Label>, labels: seq<Label>)
    requires After(capacity, from).Some? && After(capacity, labels).Some?
  {
    Rises(capacity, After(capacity, from).value.b.processingCap, After(capacity, labels).value.b.processingCap,
          WindowOf(capacity, from).ended, WindowOf(capacity, labels).ended)
  }

  predicate Rises(capacity: nat, cap: nat, next: nat, from: nat, upTo: nat) {
    from <= upTo && next == Min(cap + (upTo - from), capacity)
  }

  lemma RisesOn(capacity: nat, cap: nat, next: nat, last: nat, from: nat, upTo: nat, end: nat)
    requires Rises(capacity, cap, next, from, upTo)
    requires (end == upTo && last == next) || (end == upTo + 1 && last == Min(next + 1, capacity))
    ensures Rises(capacity, cap, last, from, end)
  {
  }

  lemma RisenNone(capacity: nat, labels: seq<Label>)
    requires capacity >= 1 && After(capacity, labels).Some?
    ensures Risen(capacity, labels, labels)
  {
    RunKeeps(capacity, labels);
    AtMostCapacity(capacity, After(capacity, labels).value);
  }

  lemma RisenStep(capacity: nat, from: seq<Label>, labels: seq<Label>)
    requires capacity >= 1 && labels != [] && After(capacity, labels).Some? && !EndsOverloaded(capacity, labels)
    requires After(capacity, from).Some? && After(capacity, labels[..|labels| - 1]).Some?
    requires Risen(capacity, from, labels[..|labels| - 1])
    ensures Risen(capacity, from, labels)
  {
    hide After, WindowOf, EndsOverloaded, Rises;
    HealthyStep(capacity, labels);
    var before := labels[..|labels| - 1];
    RisesOn(capacity, After(capacity, from).value.b.processingCap, After(capacity, before).value.b.processingCap,
            After(capacity, labels).value.b.processingCap, WindowOf(capacity, from).ended,
            WindowOf(capacity, before).ended, WindowOf(capacity, labels).ended);
  }

  /** So the cap recovers: however it was lowered, every healthy window gives it one
      more until it is back at the capacity. */
  lemma {:induction false} CapRecovers(capacity: nat, k: nat, labels: seq<Label>)
    requires capacity >= 1 && After(capacity, labels).Some? && Healthy(capacity, k, labels)
    ensures k <= |labels| && After(capacity, labels[..k]).Some? && Risen(capacity, labels[..k], labels)
    decreases |labels|
  {
    hide Apply, Enabled, EndsOverloaded, Risen;
    if k == |labels| {
      assert labels[..k] == labels;
      RisenNone(capacity, labels);
    } else {
      var before := labels[..|labels| - 1];
      assert before[..k] == labels[..k];
      CapRecovers(capacity, k, before);
      RisenStep(capacity, labels[..k], labels);
    }
  }

  lemma AtMostCapacity(capacity: nat, s: State)
    requires Inv(capacity, s)
    ensures s.b.processingCap <= capacity
  {
  }
}
