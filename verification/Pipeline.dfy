/** The ordered pipeline of `client_engine/files.rs`: fetch items concurrently,
    write their results in item order. Which request completes next, how long a
    write takes and what the cap says are left open, so the contract holds for
    every completion order. */
module Pipeline {
  import opened Prelude

  function SaturatingAdd(a: nat, b: nat): nat { Min(a + b, U64_MAX) }

  /** `a - b` on 64 bits, as a build without overflow checks computes it. */
  function WrappingSub(a: nat, b: nat): nat
    requires a <= U64_MAX && b <= U64_MAX
  {
    if b <= a then a - b else a + U64_MAX + 1 - b
  }

  /** One item can always run; further ones only within the budget. */
  predicate Fits(outstanding: nat, cost: nat, budget: nat) {
    outstanding == 0 || SaturatingAdd(outstanding, cost) <= budget
  }

  /** The cost of items `from .. to`. */
  function Total(cost: nat -> nat, from: nat, upTo: nat): nat {
    if from >= upTo then 0 else Total(cost, from, upTo - 1) + cost(upTo - 1)
  }

  lemma {:induction false} TotalFront(cost: nat -> nat, from: nat, upTo: nat)
    requires from < upTo
    ensures Total(cost, from, upTo) == cost(from) + Total(cost, from + 1, upTo)
  {
    if from + 1 < upTo {
      TotalFront(cost, from, upTo - 1);
    }
  }

  lemma {:induction false} TotalWithin(cost: nat -> nat, start: nat, from: nat, upTo: nat, end: nat)
    requires start <= from <= upTo <= end
    ensures Total(cost, from, upTo) <= Total(cost, start, end)
    decreases end - upTo, from - start
  {
    if upTo < end {
      TotalWithin(cost, start, from, upTo + 1, end);
    } else if start < from {
      TotalFront(cost, from - 1, upTo);
      TotalWithin(cost, start, from - 1, upTo, end);
    }
  }

  /** What a caller can check to know the counter is exact: only a budget of
      `u64::MAX` lets the saturating sum hide a cost. */
  ghost predicate CounterFits(cost: nat -> nat, budget: nat, start: nat, end: nat) {
    budget < U64_MAX || Total(cost, start, end) <= U64_MAX
  }

  /** A look at the loop: the items `nextWrite .. nextLaunch` are launched and
      unwritten, and `outstanding` is the counter. */
  datatype Snapshot = Snapshot(nextWrite: nat, nextLaunch: nat, outstanding: nat)

  /** The counter is exact, and over budget only for one item that carries it all. */
  ghost predicate WithinBudget(cost: nat -> nat, budget: nat, x: Snapshot) {
    && x.nextWrite <= x.nextLaunch
    && x.outstanding == Total(cost, x.nextWrite, x.nextLaunch)
    && (x.outstanding > budget ==> x.nextWrite < x.nextLaunch && x.outstanding == cost(x.nextLaunch - 1))
  }

  lemma LaunchKeepsBudget(cost: nat -> nat, budget: nat, start: nat, end: nat, x: Snapshot)
    requires start <= x.nextWrite && x.nextLaunch < end && CounterFits(cost, budget, start, end)
    requires WithinBudget(cost, budget, x) && Fits(x.outstanding, cost(x.nextLaunch), budget)
    requires cost(x.nextLaunch) <= U64_MAX
    ensures WithinBudget(cost, budget,
              Snapshot(x.nextWrite, x.nextLaunch + 1, SaturatingAdd(x.outstanding, cost(x.nextLaunch))))
  {
    TotalWithin(cost, start, x.nextWrite, x.nextLaunch + 1, end);
  }

  lemma WriteKeepsBudget(cost: nat -> nat, budget: nat, x: Snapshot)
    requires WithinBudget(cost, budget, x) && x.nextWrite < x.nextLaunch
    ensures cost(x.nextWrite) <= x.outstanding
    ensures WithinBudget(cost, budget, Snapshot(x.nextWrite + 1, x.nextLaunch, x.outstanding - cost(x.nextWrite)))
  {
    TotalFront(cost, x.nextWrite, x.nextLaunch);
    if x.nextWrite + 1 < x.nextLaunch && x.outstanding > budget {
      TotalAtLeastLast(cost, x.nextWrite + 1, x.nextLaunch);
    }
  }

  lemma TotalAtLeastLast(cost: nat -> nat, from: nat, upTo: nat)
    requires from < upTo
    ensures Total(cost, from, upTo) >= cost(upTo - 1)
  {
  }

  // The loop

  /** What the caller supplies; `fetched` and `written` are the outcomes its
      requests will have. */
  datatype Job<T, X> = Job(start: nat, end: nat, cost: nat -> nat, budget: nat,
                           fetched: nat -> Result<T, X>, written: nat -> Result<(), X>)
  {
    function Stop(): nat { Max(start, end) }

    ghost predicate Valid() {
      budget <= U64_MAX && forall i :: cost(i) <= U64_MAX
    }

    ghost predicate Exact() { CounterFits(cost, budget, start, Stop()) }
  }

  /** A launch: how many events the loop had seen, what the cap said, and how many
      items were then on the wire, this one included. */
  datatype Launched = Launched(pass: nat, cap: nat, flying: nat)

  /** The loop's variables, and what it has done: launches, in item order,
      writes begun, fetches and writes that came back, whether the counter went below zero, and a snapshot
      after every change of the counter. */
  datatype Loop<T> = Loop(
    inFlight: set<nat>,
    ready: map<nat, T>,
    writing: bool,
    nextLaunch: nat,
    nextWrite: nat,
    outstanding: nat,
    writes: seq<(nat, T)>,
    completed: nat,
    underflow: bool,
    history: seq<Snapshot>,
    launched: seq<Launched>)
  {
    function Now(): Snapshot { Snapshot(nextWrite, nextLaunch, outstanding) }
    function Events(start: nat): nat
      requires start <= nextWrite
    { completed + (nextWrite - start) }
  }

  /** Every launched and unwritten item is in one place: on the wire, fetched and
      ready, or being written. */
  ghost predicate Placed<T, X>(j: Job<T, X>, s: Loop<T>) {
    && (forall i :: i in s.inFlight ==>
          s.nextWrite <= i < s.nextLaunch && i !in s.ready && !(s.writing && i == s.nextWrite))
    && (forall i :: i in s.ready ==> s.nextWrite <= i < s.nextLaunch && !(s.writing && i == s.nextWrite))
    && (forall i :: s.nextWrite <= i < s.nextLaunch ==>
          i in s.inFlight || i in s.ready || (s.writing && i == s.nextWrite))
    && (forall i :: i in s.ready ==> j.fetched(i) == Ok(s.ready[i]))
    && (s.writing ==> s.nextWrite < s.nextLaunch)
  }

  /** The writes begun: items in order from the start, each once, with what was
      fetched for them; all but the one under way have succeeded. */
  ghost predicate InOrder<T, X>(j: Job<T, X>, writes: seq<(nat, T)>) {
    && (forall k :: 0 <= k < |writes| ==> writes[k].0 == j.start + k && j.fetched(j.start + k) == Ok(writes[k].1))
    && (forall i: nat :: j.start <= i < j.start + |writes| - 1 ==> j.written(i).Ok?)
  }

  ghost predicate Progress<T, X>(j: Job<T, X>, s: Loop<T>) {
    && j.start <= s.nextWrite <= s.nextLaunch <= j.Stop()
    && |s.writes| == s.nextWrite - j.start + (if s.writing then 1 else 0)
    && (forall i: nat :: j.start <= i < s.nextWrite ==> j.written(i).Ok?)
    && s.completed + |s.inFlight| == s.nextLaunch - j.start
  }

  ghost predicate BudgetOk<T, X>(j: Job<T, X>, s: Loop<T>) {
    && s.outstanding <= U64_MAX
    && (j.Exact() ==>
          && !s.underflow
          && WithinBudget(j.cost, j.budget, s.Now())
          && forall x :: x in s.history ==> WithinBudget(j.cost, j.budget, x))
  }

  /** Every item was launched once, in order, and never beside more than the cap
      allowed then; one may always run. */
  ghost predicate CapOk<T, X>(j: Job<T, X>, s: Loop<T>) {
    && |s.launched| == s.nextLaunch - j.start
    && forall x :: x in s.launched ==> x.flying <= x.cap || x.flying == 1
  }

  ghost predicate LoopOk<T, X>(j: Job<T, X>, s: Loop<T>) {
    Placed(j, s) && InOrder(j, s.writes) && Progress(j, s) && BudgetOk(j, s) && CapOk(j, s)
  }

  function Launch<T, X>(j: Job<T, X>, s: Loop<T>, cap: nat): Loop<T>
    requires j.start <= s.nextWrite
  {
    var outstanding := SaturatingAdd(s.outstanding, j.cost(s.nextLaunch));
    var inFlight := s.inFlight + {s.nextLaunch};
    s.(inFlight := inFlight, outstanding := outstanding, nextLaunch := s.nextLaunch + 1,
       history := s.history + [Snapshot(s.nextWrite, s.nextLaunch + 1, outstanding)],
       launched := s.launched + [Launched(s.Events(j.start), cap, |inFlight|)])
  }

  lemma LaunchPlaces<T, X>(j: Job<T, X>, s: Loop<T>, cap: nat)
    requires Placed(j, s) && j.start <= s.nextWrite <= s.nextLaunch
    ensures Placed(j, Launch(j, s, cap)) && |Launch(j, s, cap).inFlight| == |s.inFlight| + 1
  {
    assert s.nextLaunch !in s.inFlight;
  }

  lemma LaunchKeeps<T, X>(j: Job<T, X>, s: Loop<T>, cap: nat)
    requires j.Valid() && LoopOk(j, s) && s.nextLaunch < j.end && Fits(s.outstanding, j.cost(s.nextLaunch), j.budget)
    requires |s.inFlight| < Max(cap, 1)
    ensures LoopOk(j, Launch(j, s, cap))
  {
    LaunchPlaces(j, s, cap);
    hide Placed, InOrder;
    var t := Launch(j, s, cap);
    assert CapOk(j, t);
    assert BudgetOk(j, t) by {
      if j.Exact() { LaunchKeepsBudget(j.cost, j.budget, j.start, j.Stop(), s.Now()); }
    }
  }

  /** One item can always run: launching stops only once the next item to write
      is launched. */
  lemma NextIsLaunched<T, X>(j: Job<T, X>, s: Loop<T>)
    requires j.Valid() && LoopOk(j, s) && s.nextWrite < j.end
    requires s.nextLaunch >= j.end || !Fits(s.outstanding, j.cost(s.nextLaunch), j.budget) || s.inFlight != {}
    ensures s.nextWrite < s.nextLaunch
  {
    if s.inFlight != {} {
      var i :| i in s.inFlight;
    }
  }

  function BeginWrite<T>(s: Loop<T>): Loop<T>
    requires s.nextWrite in s.ready
  {
    s.(writes := s.writes + [(s.nextWrite, s.ready[s.nextWrite])], ready := s.ready - {s.nextWrite}, writing := true)
  }

  lemma BeginWriteKeeps<T, X>(j: Job<T, X>, s: Loop<T>)
    requires LoopOk(j, s) && !s.writing && s.nextWrite in s.ready
    ensures LoopOk(j, BeginWrite(s))
  {
    var t := BeginWrite(s);
    assert Placed(j, t);
    assert InOrder(j, t.writes);
  }

  function FinishWrite<T, X>(j: Job<T, X>, s: Loop<T>): Loop<T>
    requires s.outstanding <= U64_MAX && j.cost(s.nextWrite) <= U64_MAX
  {
    var outstanding := WrappingSub(s.outstanding, j.cost(s.nextWrite));
    s.(writing := false, underflow := s.underflow || s.outstanding < j.cost(s.nextWrite),
       outstanding := outstanding, nextWrite := s.nextWrite + 1,
       history := s.history + [Snapshot(s.nextWrite + 1, s.nextLaunch, outstanding)])
  }

  lemma FinishWriteKeeps<T, X>(j: Job<T, X>, s: Loop<T>)
    requires j.Valid() && LoopOk(j, s) && s.writing && j.written(s.nextWrite).Ok?
    ensures s.outstanding <= U64_MAX && j.cost(s.nextWrite) <= U64_MAX
    ensures LoopOk(j, FinishWrite(j, s))
  {
    var t := FinishWrite(j, s);
    assert Placed(j, t);
    assert BudgetOk(j, t) by {
      if j.Exact() { WriteKeepsBudget(j.cost, j.budget, s.Now()); }
    }
  }

  function FinishFetch<T>(s: Loop<T>, item: nat, value: T): Loop<T> {
    s.(inFlight := s.inFlight - {item}, ready := s.ready[item := value], completed := s.completed + 1)
  }

  lemma FinishFetchKeeps<T, X>(j: Job<T, X>, s: Loop<T>, item: nat, value: T)
    requires LoopOk(j, s) && item in s.inFlight && j.fetched(item) == Ok(value)
    ensures LoopOk(j, FinishFetch(s, item, value))
  {
    var t := FinishFetch(s, item, value);
    assert Placed(j, t);
    assert |s.inFlight| == |t.inFlight| + 1;
  }

  // The loop as steps, for whatever runs its waits allow

  /** `waiting` once the launches of a pass are over and it waits for an event. */
  datatype Run<T> = Run(loop: Loop<T>, waiting: bool)

  /** A launch, and the end of a pass's launches, go by what the cap says then. */
  datatype Move = Launching(cap: nat) | Selecting(cap: nat) | Written | Fetched(item: nat)

  predicate CanMove<T, X>(j: Job<T, X>, r: Run<T>, m: Move) {
    var s := r.loop;
    match m
    case Launching(cap) =>
      && !r.waiting && j.start <= s.nextWrite < j.end && s.nextLaunch < j.end && |s.inFlight| < Max(cap, 1)
      && Fits(s.outstanding, j.cost(s.nextLaunch), j.budget)
    case Selecting(cap) =>
      && !r.waiting && s.nextWrite < j.end
      && (s.nextLaunch >= j.end || |s.inFlight| >= Max(cap, 1)
          || !Fits(s.outstanding, j.cost(s.nextLaunch), j.budget))
    case Written => r.waiting && s.writing && j.written(s.nextWrite).Ok?
    case Fetched(item) => r.waiting && item in s.inFlight && j.fetched(item).Ok?
  }

  function Selected<T>(s: Loop<T>): Loop<T> {
    if !s.writing && s.nextWrite in s.ready then BeginWrite(s) else s
  }

  ghost function Moved<T, X>(j: Job<T, X>, r: Run<T>, m: Move): (t: Run<T>)
    requires j.Valid() && r.loop.outstanding <= U64_MAX && CanMove(j, r, m)
    ensures t.loop.outstanding <= U64_MAX
  {
    match m
    case Launching(cap) => Run(Launch(j, r.loop, cap), false)
    case Selecting(_) => Run(Selected(r.loop), true)
    case Written => Run(FinishWrite(j, r.loop), false)
    case Fetched(item) => Run(FinishFetch(r.loop, item, j.fetched(item).value), false)
  }

  function Start<T, X>(j: Job<T, X>): Run<T> {
    Run(Loop({}, map[], false, j.start, j.start, 0, [], 0, false, [], []), false)
  }

  ghost function After<T, X>(j: Job<T, X>, moves: seq<Move>): (r: Option<Run<T>>)
    requires j.Valid()
    ensures r.Some? ==> r.value.loop.outstanding <= U64_MAX
  {
    if moves == [] then Some(Start(j))
    else
      var last := |moves| - 1;
      match After(j, moves[..last])
      case None => None
      case Some(r) => if CanMove(j, r, moves[last]) then Some(Moved(j, r, moves[last])) else None
  }

  ghost predicate Reachable<T, X>(j: Job<T, X>, r: Run<T>)
    requires j.Valid()
  {
    exists moves :: After(j, moves) == Some(r)
  }

  lemma ReachStart<T, X>(j: Job<T, X>)
    requires j.Valid()
    ensures Reachable(j, Start(j))
  {
    assert After(j, []) == Some(Start(j));
  }

  lemma ReachStep<T, X>(j: Job<T, X>, r: Run<T>, m: Move)
    requires j.Valid() && Reachable(j, r) && CanMove(j, r, m)
    ensures r.loop.outstanding <= U64_MAX && Reachable(j, Moved(j, r, m))
  {
    var moves :| After(j, moves) == Some(r);
    assert (moves + [m])[..|moves + [m]| - 1] == moves;
    assert After(j, moves + [m]) == Some(Moved(j, r, m));
  }

  lemma ReachSelected<T, X>(j: Job<T, X>, s: Loop<T>, cap: nat)
    requires j.Valid() && Reachable(j, Run(s, false)) && CanMove(j, Run(s, false), Selecting(cap))
    ensures Reachable(j, Run(Selected(s), true))
  {
    ReachStep(j, Run(s, false), Selecting(cap));
  }

  lemma ReachWritten<T, X>(j: Job<T, X>, s: Loop<T>)
    requires j.Valid() && Reachable(j, Run(s, true)) && s.writing && j.written(s.nextWrite).Ok?
    ensures s.outstanding <= U64_MAX && Reachable(j, Run(FinishWrite(j, s), false))
  {
    ReachStep(j, Run(s, true), Written);
  }

  lemma ReachFetched<T, X>(j: Job<T, X>, s: Loop<T>, item: nat)
    requires j.Valid() && Reachable(j, Run(s, true)) && item in s.inFlight && j.fetched(item).Ok?
    ensures Reachable(j, Run(FinishFetch(s, item, j.fetched(item).value), false))
  {
    ReachStep(j, Run(s, true), Fetched(item));
  }

  /** What the cap says in the pass after some events, when an item is up. */
  type Caps = (nat, nat) -> nat

  /** Every launch went by what the cap said then. */
  ghost predicate Heeded<T, X>(j: Job<T, X>, caps: Caps, s: Loop<T>) {
    forall k :: 0 <= k < |s.launched| ==> s.launched[k].cap == caps(s.launched[k].pass, j.start + k)
  }

  lemma LaunchHeeds<T, X>(j: Job<T, X>, caps: Caps, s: Loop<T>)
    requires Heeded(j, caps, s) && |s.launched| == s.nextLaunch - j.start && j.start <= s.nextWrite
    ensures Heeded(j, caps, Launch(j, s, caps(s.Events(j.start), s.nextLaunch)))
  {
  }

  lemma LoopShape<T, X>(j: Job<T, X>, s: Loop<T>)
    requires LoopOk(j, s)
    ensures |s.launched| == s.nextLaunch - j.start && j.start <= s.nextWrite <= s.nextLaunch
  {
  }

  /** Launch items while the cap, read anew each time, and the budget admit them. */
  method LaunchItems<T, X>(j: Job<T, X>, caps: Caps, s: Loop<T>) returns (t: Loop<T>)
    requires j.Valid() && LoopOk(j, s) && s.nextWrite < j.end && Reachable(j, Run(s, false)) && Heeded(j, caps, s)
    ensures LoopOk(j, t) && Reachable(j, Run(t, false)) && Heeded(j, caps, t)
    ensures CanMove(j, Run(t, false), Selecting(caps(s.Events(j.start), t.nextLaunch)))
    ensures t == s.(inFlight := t.inFlight, outstanding := t.outstanding, nextLaunch := t.nextLaunch,
                    history := t.history, launched := t.launched)
    ensures s.nextLaunch <= t.nextLaunch
    ensures t.nextWrite < t.nextLaunch
  {
    hide LoopOk, Reachable, Heeded;
    LoopShape(j, s);
    t := s;
    while t.nextLaunch < j.end && |t.inFlight| < Max(caps(t.Events(j.start), t.nextLaunch), 1)
          && Fits(t.outstanding, j.cost(t.nextLaunch), j.budget)
      invariant LoopOk(j, t) && s.nextLaunch <= t.nextLaunch && Reachable(j, Run(t, false)) && Heeded(j, caps, t)
      invariant t == s.(inFlight := t.inFlight, outstanding := t.outstanding, nextLaunch := t.nextLaunch,
                        history := t.history, launched := t.launched)
      decreases j.end - t.nextLaunch
    {
      var cap := caps(t.Events(j.start), t.nextLaunch);
      LoopShape(j, t);
      LaunchKeeps(j, t, cap);
      LaunchHeeds(j, caps, t);
      ReachStep(j, Run(t, false), Launching(cap));
      t := Launch(j, t, cap);
    }
    LoopShape(j, t);
    NextIsLaunched(j, t);
  }

  /** With nothing being written and nothing ready to be, something is in flight,
      so neither wait of the loop is for nothing. */
  lemma SomethingInFlight<T, X>(j: Job<T, X>, s: Loop<T>)
    requires LoopOk(j, s) && !s.writing && s.nextWrite < s.nextLaunch && s.nextWrite !in s.ready
    ensures s.nextWrite in s.inFlight
  {
  }

  lemma Finishes<T, X>(j: Job<T, X>, s: Loop<T>)
    requires LoopOk(j, s) && s.nextWrite >= j.end
    ensures !s.writing && s.inFlight == {} && |s.writes| == j.Stop() - j.start && s.Events(j.start) == 2 * |s.writes|
  {
    assert forall i :: i !in s.inFlight;
  }

  /** What is left to happen. */
  function Work<T, X>(j: Job<T, X>, s: Loop<T>): nat
    requires s.nextWrite <= j.Stop() && s.nextLaunch <= j.Stop()
  {
    (j.Stop() - s.nextWrite) + (j.Stop() - s.nextLaunch) + |s.inFlight|
  }

  lemma EventBound<T, X>(j: Job<T, X>, s: Loop<T>)
    requires Progress(j, s) && s.nextWrite < j.end
    ensures s.Events(j.start) < 2 * (j.Stop() - j.start)
    ensures s.inFlight != {} ==> s.Events(j.start) + 1 < 2 * (j.Stop() - j.start)
  {
  }

  /** Wait for the write or for any fetch. */
  method AwaitEvent<T, X>(j: Job<T, X>, s: Loop<T>) returns (error: Option<X>, t: Loop<T>)
    requires j.Valid() && LoopOk(j, s) && Reachable(j, Run(s, true)) && (!s.writing ==> s.inFlight != {})
    ensures LoopOk(j, t) && Reachable(j, Run(t, error.Some?))
    ensures error.None? ==> t.Events(j.start) == s.Events(j.start) + 1 && Work(j, t) < Work(j, s)
    ensures t.launched == s.launched && (error.Some? ==> t == s)
    ensures error.Some? ==>
              || (exists i: nat :: j.start <= i < j.end && j.fetched(i) == Err(error.value))
              || (t.writes != [] && j.written(j.start + |t.writes| - 1) == Err(error.value))
  {
    hide Placed, InOrder, BudgetOk, Reachable;
    t := s;
    var writeFirst: bool := *;
    if t.writing && (t.inFlight == {} || writeFirst) {
      if j.written(t.nextWrite).Err? {
        return Some(j.written(t.nextWrite).error), t;
      }
      FinishWriteKeeps(j, t);
      ReachWritten(j, t);
      t := FinishWrite(j, t);
    } else {
      var item :| item in t.inFlight;
      ItemInRange(j, t, item);
      if j.fetched(item).Err? {
        return Some(j.fetched(item).error), t;
      }
      FinishFetchKeeps(j, t, item, j.fetched(item).value);
      ReachFetched(j, t, item);
      t := FinishFetch(t, item, j.fetched(item).value);
    }
    error := None;
  }

  lemma SelectedKeeps<T, X>(j: Job<T, X>, s: Loop<T>)
    requires LoopOk(j, s) && s.nextWrite < s.nextLaunch
    ensures LoopOk(j, Selected(s)) && (!Selected(s).writing ==> Selected(s).inFlight != {})
    ensures Selected(s).Events(j.start) == s.Events(j.start) && Work(j, Selected(s)) == Work(j, s)
  {
    hide Placed, InOrder, BudgetOk;
    if !s.writing && s.nextWrite in s.ready {
      BeginWriteKeeps(j, s);
    } else if !s.writing {
      SomethingInFlight(j, s);
    }
  }

  /** One pass of the loop: launch, begin the next write if its item is ready,
      then wait for an event. */
  method Pass<T, X>(j: Job<T, X>, caps: Caps, s: Loop<T>) returns (error: Option<X>, t: Loop<T>)
    requires j.Valid() && LoopOk(j, s) && s.nextWrite < j.end && Reachable(j, Run(s, false)) && Heeded(j, caps, s)
    ensures LoopOk(j, t) && Reachable(j, Run(t, error.Some?)) && Heeded(j, caps, t)
    ensures error.None? ==> t.Events(j.start) == s.Events(j.start) + 1 && Work(j, t) < Work(j, s)
    ensures error.Some? ==> t.Events(j.start) == s.Events(j.start)
    ensures error.Some? ==>
              || (exists i: nat :: j.start <= i < j.end && j.fetched(i) == Err(error.value))
              || (t.writes != [] && j.written(j.start + |t.writes| - 1) == Err(error.value))
  {
    hide Placed, InOrder, BudgetOk, Reachable, CanMove;
    t := LaunchItems(j, caps, s);
    ReachSelected(j, t, caps(s.Events(j.start), t.nextLaunch));
    SelectedKeeps(j, t);
    assert Work(j, t) == Work(j, s);
    if !t.writing && t.nextWrite in t.ready {
      t := BeginWrite(t);
    }
    error, t := AwaitEvent(j, t);
  }

  lemma ItemInRange<T, X>(j: Job<T, X>, s: Loop<T>, item: nat)
    requires LoopOk(j, s) && item in s.inFlight
    ensures j.start <= item < j.end
  {
  }

  lemma StartOk<T, X>(j: Job<T, X>)
    ensures LoopOk(j, Start(j).loop)
  {
  }

  lemma ExactOk<T, X>(j: Job<T, X>, s: Loop<T>)
    requires LoopOk(j, s) && j.Exact()
    ensures !s.underflow && s.outstanding == Total(j.cost, s.nextWrite, s.nextLaunch)
    ensures forall x :: x in s.history ==> WithinBudget(j.cost, j.budget, x)
  {
  }

  lemma NothingLaunched<T, X>(j: Job<T, X>, caps: Caps)
    ensures Heeded(j, caps, Start(j).loop)
  {
  }

  method OrderedPipeline<T, X>(j: Job<T, X>, caps: Caps) returns (result: Result<(), X>, s: Loop<T>, events: nat)
    requires j.Valid()
    ensures InOrder(j, s.writes)
    ensures result.Ok? ==> |s.writes| == j.Stop() - j.start && events == 2 * |s.writes| && s.inFlight == {}
    ensures result.Err? ==>
              || (exists i: nat :: j.start <= i < j.end && j.fetched(i) == Err(result.error))
              || (s.writes != [] && j.written(j.start + |s.writes| - 1) == Err(result.error))
    ensures events <= 2 * (j.Stop() - j.start)
    ensures CapOk(j, s) && Heeded(j, caps, s)
    ensures Reachable(j, Run(s, result.Err?))
    ensures j.Exact() ==> !s.underflow && forall x :: x in s.history ==> WithinBudget(j.cost, j.budget, x)
  {
    hide Placed, BudgetOk, Reachable, Heeded;
    s := Start(j).loop;
    assert Heeded(j, caps, s) by { NothingLaunched(j, caps); }
    events := 0;
    ReachStart(j);
    StartOk(j);
    while s.nextWrite < j.end
      invariant LoopOk(j, s) && events == s.Events(j.start) && Reachable(j, Run(s, false)) && Heeded(j, caps, s)
      decreases Work(j, s)
    {
      EventBound(j, s);
      var error;
      error, s := Pass(j, caps, s);
      if j.Exact() { ExactOk(j, s); }
      events := events + 1;
      if error.Some? { return Err(error.value), s, events; }
    }
    if j.Exact() { ExactOk(j, s); }
    Finishes(j, s);
    result := Ok(());
  }

  // When the saturating counter can lie

  lemma {:induction false} RunOk<T, X>(j: Job<T, X>, moves: seq<Move>)
    requires j.Valid() && After(j, moves).Some?
    ensures LoopOk(j, After(j, moves).value.loop)
  {
    hide LoopOk;
    if moves == [] {
      StartOk(j);
    } else {
      var last := |moves| - 1;
      RunOk(j, moves[..last]);
      MoveKeeps(j, After(j, moves[..last]).value, moves[last]);
    }
  }

  lemma MoveKeeps<T, X>(j: Job<T, X>, r: Run<T>, m: Move)
    requires j.Valid() && LoopOk(j, r.loop) && CanMove(j, r, m)
    ensures r.loop.outstanding <= U64_MAX && LoopOk(j, Moved(j, r, m).loop)
  {
    assert r.loop.outstanding <= U64_MAX;
    hide LoopOk;
    match m
    case Launching(cap) => LaunchKeeps(j, r.loop, cap);
    case Selecting(_) => if !r.loop.writing && r.loop.nextWrite in r.loop.ready { BeginWriteKeeps(j, r.loop); }
    case Written => FinishWriteKeeps(j, r.loop);
    case Fetched(item) => FinishFetchKeeps(j, r.loop, item, j.fetched(item).value);
  }

  lemma ReachableOk<T, X>(j: Job<T, X>, r: Run<T>)
    requires j.Valid() && Reachable(j, r)
    ensures LoopOk(j, r.loop)
  {
    var moves :| After(j, moves) == Some(r);
    RunOk(j, moves);
  }

  /** With the largest budget the cap may let every item be launched before any is
      written; the counter then is what the saturating sum makes of their cost. */
  lemma {:induction false} AllLaunched<T, X>(j: Job<T, X>, k: nat) returns (r: Run<T>)
    requires j.Valid() && j.budget == U64_MAX && j.start <= k <= j.end
    ensures Reachable(j, r) && !r.waiting && r.loop.nextWrite == j.start && r.loop.nextLaunch == k
    ensures r.loop.outstanding == Min(Total(j.cost, j.start, k), U64_MAX) && !r.loop.underflow
    decreases k
  {
    hide Reachable;
    if k == j.start {
      r := Start(j);
      ReachStart(j);
    } else {
      var before := AllLaunched(j, k - 1);
      var all := |before.loop.inFlight| + 1;
      ReachStep(j, before, Launching(all));
      r := Moved(j, before, Launching(all));
    }
  }

  /** The counter of every reachable state is exact, and never taken below zero. */
  ghost predicate CounterExact<T(!new), X>(j: Job<T, X>)
    requires j.Valid()
  {
    forall r: Run<T> :: Reachable(j, r) ==>
      !r.loop.underflow && r.loop.outstanding == Total(j.cost, r.loop.nextWrite, r.loop.nextLaunch)
  }

  /** The counter is exact in every state of every run, and never taken below zero,
      if and only if the budget is below `u64::MAX` or all the costs together fit. */
  lemma CounterExactIff<T(!new), X>(j: Job<T, X>)
    requires j.Valid()
    ensures CounterExact(j) <==> j.Exact()
  {
    hide Reachable;
    if j.Exact() {
      forall r: Run<T> | Reachable(j, r)
        ensures !r.loop.underflow && r.loop.outstanding == Total(j.cost, r.loop.nextWrite, r.loop.nextLaunch)
      {
        ReachableOk(j, r);
        ExactOk(j, r.loop);
      }
    } else {
      var r := AllLaunched(j, j.end);
    }
  }

  ghost predicate AllSucceed<T, X>(j: Job<T, X>) {
    forall i: nat :: j.start <= i < j.end ==> j.fetched(i).Ok? && j.written(i).Ok?
  }

  /** What is left of a counter that was full when every item had been launched. */
  ghost predicate Draining<T, X>(j: Job<T, X>, s: Loop<T>) {
    s.nextLaunch == j.end && (s.underflow || s.outstanding + Total(j.cost, j.start, s.nextWrite) == U64_MAX)
  }

  /** When nothing fails, everything is written in the end. */
  lemma {:induction false} DrainsToTheEnd<T, X>(j: Job<T, X>, r: Run<T>) returns (t: Run<T>)
    requires j.Valid() && AllSucceed(j) && Reachable(j, r) && !r.waiting && LoopOk(j, r.loop) && Draining(j, r.loop)
    ensures Reachable(j, t) && t.loop.nextWrite >= j.end && Draining(j, t.loop)
    decreases Work(j, r.loop)
  {
    hide Reachable, Placed, InOrder, BudgetOk, CapOk;
    if r.loop.nextWrite >= j.end {
      t := r;
    } else {
      var s := Selected(r.loop);
      ReachSelected(j, r.loop, 1);
      SelectedKeeps(j, r.loop);
      if s.writing {
        ReachWritten(j, s);
        FinishWriteKeeps(j, s);
        t := DrainsToTheEnd(j, Run(FinishWrite(j, s), false));
      } else {
        var item :| item in s.inFlight;
        ItemInRange(j, s, item);
        ReachFetched(j, s, item);
        FinishFetchKeeps(j, s, item, j.fetched(item).value);
        t := DrainsToTheEnd(j, Run(FinishFetch(s, item, j.fetched(item).value), false));
      }
    }
  }

  /** When nothing fails, a run takes the counter below zero if and only if the
      counter can be inexact at all. */
  lemma UnderflowIff<T(!new), X>(j: Job<T, X>)
    requires j.Valid() && AllSucceed(j)
    ensures (exists r: Run<T> :: Reachable(j, r) && r.loop.underflow) <==> !j.Exact()
  {
    hide Reachable, LoopOk;
    CounterExactIff(j);
    if !j.Exact() {
      var r := AllLaunched(j, j.end);
      ReachableOk(j, r);
      var t := DrainsToTheEnd(j, r);
      ReachableOk(j, t);
      AtTheEnd(j, t.loop);
    }
  }

  lemma AtTheEnd<T, X>(j: Job<T, X>, s: Loop<T>)
    requires LoopOk(j, s) && s.nextWrite >= j.end
    ensures s.nextWrite == j.Stop()
  {
  }

  /** Two items that cost `u64::MAX` and one, under a budget of `u64::MAX`. */
  function TwoItems(): Job<nat, nat> {
    Job(0, 2, (i: nat) => if i == 0 then U64_MAX else 1, U64_MAX, (i: nat) => Ok(i), (i: nat) => Ok(()))
  }

  /** Both are launched at once, since the saturating sum stays within the budget;
      the second write then takes the counter below zero, to `u64::MAX`. */
  lemma TwoItemsUnderflow() returns (r: Run<nat>)
    ensures TwoItems().Valid() && Reachable(TwoItems(), r)
    ensures r.loop.nextWrite == 2 && r.loop.underflow && r.loop.outstanding == U64_MAX
  {
    hide Reachable;
    var j := TwoItems();
    ReachStart(j);
    r := Start(j);
    ReachStep(j, r, Launching(2));
    r := Moved(j, r, Launching(2));
    ReachStep(j, r, Launching(2));
    r := Moved(j, r, Launching(2));
    assert r.loop.outstanding == U64_MAX && r.loop.inFlight == {0, 1};
    r := WriteNext(j, r);
    assert r.loop.outstanding == 0;
    r := WriteNext(j, r);
  }

  /** The next item is fetched and written. */
  lemma WriteNext<T, X>(j: Job<T, X>, r: Run<T>) returns (t: Run<T>)
    requires j.Valid() && Reachable(j, r) && !r.waiting && !r.loop.writing && r.loop.outstanding <= U64_MAX
    requires r.loop.nextWrite < j.end && r.loop.nextLaunch >= j.end
    requires r.loop.nextWrite in r.loop.inFlight && r.loop.nextWrite !in r.loop.ready
    requires j.fetched(r.loop.nextWrite).Ok? && j.written(r.loop.nextWrite).Ok?
    ensures Reachable(j, t) && !t.waiting && !t.loop.writing
    ensures t.loop.nextWrite == r.loop.nextWrite + 1 && t.loop.nextLaunch == r.loop.nextLaunch
    ensures t.loop.inFlight == r.loop.inFlight - {r.loop.nextWrite} && t.loop.ready == r.loop.ready
    ensures j.cost(r.loop.nextWrite) <= U64_MAX
            && t.loop.outstanding == WrappingSub(r.loop.outstanding, j.cost(r.loop.nextWrite))
    ensures t.loop.underflow == (r.loop.underflow || r.loop.outstanding < j.cost(r.loop.nextWrite))
  {
    hide Reachable;
    var i := r.loop.nextWrite;
    ReachSelected(j, r.loop, 1);
    ReachFetched(j, r.loop, i);
    var fetched := FinishFetch(r.loop, i, j.fetched(i).value);
    ReachSelected(j, fetched, 1);
    ReachWritten(j, BeginWrite(fetched));
    t := Run(FinishWrite(j, BeginWrite(fetched)), false);
  }
}
