/** The progressive read of `client_engine/read.rs`: speculative GETs while
    discovery runs, hedges after a stall, the handover to the ordinary sweep,
    refusal waits and the absence decision.

    A run is a sequence of labels applied to a state. Labels are the engine's
    own steps and everything it waits for: time, hint updates, dispatch notices,
    stall timers, GET answers, discovery. They may come in any order the waits
    of the source allow. */
module ProgressiveRead {
  import opened Prelude
  import opened Sorting
  import opened ReadOrder

  /** Milliseconds. */
  const CLOSE_GROUP_RETRY_DELAY: nat := 1000
  const MAX_REFUSAL_WAITS: nat := 3
  const MAX_EARLY_READS_PER_ALLOWANCE: nat := 2
  const MAX_CONCURRENT_EARLY_READS: nat := 2

  datatype Config = Config(dist: Metric, limit: nat, hedgeDelay: nat) {
    function Allowance(): nat { Min(limit, MAX_GET_FALLBACK_PEERS) }
    function MaxEarlyReads(): nat { Allowance() * MAX_EARLY_READS_PER_ALLOWANCE }
  }

  /** What a GET returns; the adapter classifies its errors. */
  datatype Answer = Found(record: nat) | Missing | Retryable | Fatal(error: nat)

  datatype Outcome = Present(record: nat) | Absent | Failed(error: nat) | Busy

  // Stall timers, by peer. `StallTimers` keeps them as the source does, in a list.

  datatype Timer = Undispatched | Sleeping | Fired

  type Timers = map<Peer, Timer>

  /** Another GET may join those in flight only as a hedge. */
  predicate AdmitAnother(stalls: Timers) {
    |stalls| < MAX_CONCURRENT_EARLY_READS && forall p :: p in stalls ==> stalls[p].Fired?
  }

  // State

  /** The round under way. `gets` counts the GETs started, and `asked`,
      `answers` and `dispatchedAt` record what happened on the wire; the engine
      reads none of these. */
  datatype Round = Round(
    refusedBefore: set<Peer>,
    hints: seq<Peer>,
    updatesOpen: bool,
    attempted: set<Peer>,
    notFound: set<Peer>,
    active: set<Peer>,
    stalls: Timers,
    gets: nat,
    asked: set<Peer>,
    answers: map<Peer, Answer>,
    dispatchedAt: map<Peer, nat>)
  {
    /** The GETs on the wire: asked and not answered. */
    function InFlight(): set<Peer> {
      asked - answers.Keys
    }
  }

  datatype OrdinaryTask = AwaitingSlot | Running | Swept
  datatype EarlyTask = Offering | Racing | Drained

  /** The ordinary sweep beside the early GETs that outlived discovery. */
  datatype Sweep = Sweep(
    finalIds: set<Peer>,
    todo: seq<Peer>,
    asking: Option<Peer>,
    ordinary: OrdinaryTask,
    early: EarlyTask,
    slot: bool)

  datatype Phase =
    | Starting(until: nat)
    | Choosing
    | Waiting
    | Sweeping(sweep: Sweep)
    | Done(outcome: Outcome)

  datatype State = State(
    now: nat,
    phase: Phase,
    round: Round,
    retried: bool,
    refusalWaits: nat)

  function NewRound(refused: set<Peer>): Round {
    Round(refused, [], true, {}, {}, {}, map[], 0, {}, map[], map[])
  }

  function Init(): State {
    State(0, Starting(0), NewRound({}), false, 0)
  }

  datatype Label =
    | Tick(elapsed: nat)
    | StartRound(skipped: set<Peer>)
    | Publish(hints: seq<Peer>)
    | Dispatch(peer: Peer)
    | TryEarly(choice: nat)
    | HintsChanged(open: bool)
    | StallFires(peer: Peer)
    | EarlyAnswer(peer: Peer, answer: Answer)
    | Discovered(closest: seq<Peer>, known: seq<Peer>, choices: nat -> nat)
    | OfferSlot
    | EarlyEnds
    | TakeSlot
    | AskNext
    | OrdinaryAnswer(peer: Peer, answer: Answer)
    | EndRound(refused: map<Peer, nat>, remaining: nat)

  // The absence decision

  function Misses(answers: map<Peer, Answer>): set<Peer> {
    set p | p in answers && answers[p].Missing?
  }

  predicate IsAuthoritativeNotFound(notFound: nat, queried: nat) {
    queried >= CLOSE_GROUP_MAJORITY && notFound == queried
  }

  /** Refused peers that may still hold the record: they did not answer
      NotFound, nor did a close group of nearer peers. */
  function Hiding(refused: set<Peer>, misses: set<Peer>, dist: Metric): set<Peer> {
    set p | p in refused && p !in misses && MayHold(misses, p, dist)
  }

  function Remaining(refused: map<Peer, nat>, p: Peer): nat {
    if p in refused then refused[p] else 0
  }

  /** `remaining` is the wait for the first hiding peer to return. */
  predicate IsShortest(refused: map<Peer, nat>, hiding: set<Peer>, remaining: nat) {
    && (exists p :: p in hiding && Remaining(refused, p) == remaining)
    && (forall p :: p in hiding ==> remaining <= Remaining(refused, p))
  }

  // Steps

  /** An early GET has waited the hedge delay since its dispatch. */
  predicate Waited(c: Config, now: nat, r: Round, p: Peer) {
    p in r.dispatchedAt && now >= r.dispatchedAt[p] + c.hedgeDelay
  }

  predicate InEarlyPhase(phase: Phase) {
    phase.Choosing? || phase.Waiting?
  }

  predicate Listening(phase: Phase) {
    phase.Waiting? || (phase.Sweeping? && phase.sweep.early.Racing?)
  }

  /** The ordinary path's GET to `p` is on the wire. */
  predicate IsAsking(phase: Phase, p: Peer) {
    phase.Sweeping? && phase.sweep.asking == Some(p)
  }

  predicate Enabled(c: Config, s: State, l: Label) {
    match l
    case Tick(_) => !s.phase.Done?
    case StartRound(_) => s.phase.Starting? && s.now >= s.phase.until
    case Publish(_) => InEarlyPhase(s.phase)
    case Dispatch(p) =>
      && (InEarlyPhase(s.phase) || s.phase.Sweeping?)
      && p in s.round.stalls && s.round.stalls[p].Undispatched?
    case TryEarly(_) => s.phase.Choosing?
    case HintsChanged(_) => s.phase.Waiting? && s.round.updatesOpen
    case StallFires(p) =>
      && Listening(s.phase)
      && p in s.round.stalls && s.round.stalls[p].Sleeping?
      && Waited(c, s.now, s.round, p)
    case EarlyAnswer(p, _) => Listening(s.phase) && p in s.round.active
    case Discovered(_, _, _) => s.phase.Waiting?
    case OfferSlot => s.phase.Sweeping? && s.phase.sweep.early.Offering?
    case EarlyEnds => s.phase.Sweeping? && s.phase.sweep.early.Racing? && s.round.active == {}
    case TakeSlot =>
      && s.phase.Sweeping? && s.phase.sweep.ordinary.AwaitingSlot?
      && (s.phase.sweep.slot || s.phase.sweep.early.Drained?)
    case AskNext =>
      s.phase.Sweeping? && s.phase.sweep.ordinary.Running? && s.phase.sweep.asking.None?
    case OrdinaryAnswer(p, _) => IsAsking(s.phase, p)
    case EndRound(refused, remaining) =>
      && s.phase.Sweeping? && s.phase.sweep.ordinary.Swept? && s.phase.sweep.early.Drained?
      && (var hiding := Hiding(s.round.refusedBefore + refused.Keys, s.round.notFound, c.dist);
          hiding != {} ==> IsShortest(refused, hiding, remaining))
  }

  /** Record a GET's answer: the record or a fatal error ends the read, a miss
      adds the peer to those that answered without it. */
  function Settle(s: State, p: Peer, answer: Answer, next: Phase): State {
    var round := s.round.(answers := s.round.answers[p := answer]);
    match answer
    case Found(record) => s.(round := round, phase := Done(Present(record)))
    case Fatal(error) => s.(round := round, phase := Done(Failed(error)))
    case Missing => s.(round := round.(notFound := round.notFound + {p}), phase := next)
    case Retryable => s.(round := round, phase := next)
  }

  function StartEarly(r: Round, p: Peer): Round {
    r.(attempted := r.attempted + {p},
       active := r.active + {p},
       stalls := r.stalls[p := Undispatched],
       gets := r.gets + 1,
       asked := r.asked + {p})
  }

  function ApplyTryEarly(c: Config, s: State, choice: nat): State {
    var r := s.round;
    if AdmitAnother(r.stalls) && |r.attempted| < c.MaxEarlyReads() then
      match NextEarly(r.hints, r.attempted, |r.attempted| < c.Allowance(), choice, c.dist)
      case None => s.(phase := Waiting)
      case Some(p) =>
        s.(phase := Waiting, round := StartEarly(r, p))
    else s.(phase := Waiting)
  }

  function ApplyDiscovered(c: Config, s: State, closest: seq<Peer>, known: seq<Peer>, choices: nat -> nat): State {
    var targets := Targets(closest, known, choices, c.dist);
    s.(phase := Sweeping(Sweep(
      Elems(targets), targets, None,
      if AdmitAnother(s.round.stalls) then Running else AwaitingSlot,
      if s.round.active == {} then Drained else Offering,
      false)))
  }

  function ApplyAskNext(s: State): State
    requires s.phase.Sweeping?
  {
    var w := s.phase.sweep;
    if w.todo == [] then s.(phase := Sweeping(w.(ordinary := Swept)))
    else
      var p, rest := w.todo[0], w.todo[1..];
      if p in s.round.attempted then s.(phase := Sweeping(w.(todo := rest)))
      else s.(phase := Sweeping(w.(todo := rest, asking := Some(p))),
              round := s.round.(gets := s.round.gets + 1, asked := s.round.asked + {p}))
  }

  function ApplyEndRound(c: Config, s: State, refused: map<Peer, nat>, remaining: nat): State
    requires s.phase.Sweeping?
  {
    var r, w := s.round, s.phase.sweep;
    var absent := IsAuthoritativeNotFound(|w.finalIds * r.notFound|, |w.finalIds|);
    var hiding := Hiding(r.refusedBefore + refused.Keys, r.notFound, c.dist);
    if hiding != {} then
      if s.refusalWaits == MAX_REFUSAL_WAITS then s.(phase := Done(Busy))
      else s.(refusalWaits := s.refusalWaits + 1,
              phase := Starting(s.now + Max(remaining, CLOSE_GROUP_RETRY_DELAY)))
    else if absent || s.retried then s.(phase := Done(Absent))
    else s.(retried := true, phase := Starting(s.now + CLOSE_GROUP_RETRY_DELAY))
  }

  function ApplyDispatch(s: State, p: Peer): State {
    var r := s.round;
    s.(round := r.(stalls := r.stalls[p := Sleeping], dispatchedAt := r.dispatchedAt[p := s.now]))
  }

  function ApplyStallFires(s: State, p: Peer): State {
    s.(round := s.round.(stalls := s.round.stalls[p := Fired]), phase := AfterEarlyEvent(s.phase))
  }

  function ApplyEarlyAnswer(s: State, p: Peer, answer: Answer): State {
    var r := s.round;
    Settle(s.(round := r.(active := r.active - {p}, stalls := r.stalls - {p})),
           p, answer, AfterEarlyEvent(s.phase))
  }

  function ApplyOfferSlot(s: State): State
    requires s.phase.Sweeping?
  {
    var w := s.phase.sweep;
    s.(phase := Sweeping(w.(slot := w.slot || AdmitAnother(s.round.stalls), early := Racing)))
  }

  function ApplyOrdinaryAnswer(s: State, p: Peer, answer: Answer): State
    requires s.phase.Sweeping?
  {
    Settle(s, p, answer, Sweeping(s.phase.sweep.(asking := None)))
  }

  function Apply(c: Config, s: State, l: Label): State
    requires Enabled(c, s, l)
  {
    match l
    case Tick(elapsed) => s.(now := s.now + elapsed)
    case StartRound(skipped) => s.(phase := Choosing, round := NewRound(skipped))
    case Publish(hints) => s.(round := s.round.(hints := hints))
    case Dispatch(p) => ApplyDispatch(s, p)
    case TryEarly(choice) => ApplyTryEarly(c, s, choice)
    case HintsChanged(open) => s.(phase := Choosing, round := s.round.(updatesOpen := open))
    case StallFires(p) => ApplyStallFires(s, p)
    case EarlyAnswer(p, answer) => ApplyEarlyAnswer(s, p, answer)
    case Discovered(closest, known, choices) => ApplyDiscovered(c, s, closest, known, choices)
    case OfferSlot => ApplyOfferSlot(s)
    case EarlyEnds => s.(phase := Sweeping(s.phase.sweep.(early := Drained)))
    case TakeSlot => s.(phase := Sweeping(s.phase.sweep.(ordinary := Running)))
    case AskNext => ApplyAskNext(s)
    case OrdinaryAnswer(p, answer) => ApplyOrdinaryAnswer(s, p, answer)
    case EndRound(refused, remaining) => ApplyEndRound(c, s, refused, remaining)
  }

  /** Both loops look again at what may start after an early GET's event. */
  function AfterEarlyEvent(phase: Phase): Phase {
    if phase.Sweeping? then Sweeping(phase.sweep.(early := Offering)) else Choosing
  }

  /** The state a run of labels leads to, if each label was enabled in turn. */
  function After(c: Config, labels: seq<Label>): Option<State> {
    if labels == [] then Some(Init())
    else
      var last := |labels| - 1;
      match After(c, labels[..last])
      case None => None
      case Some(s) => if Enabled(c, s, labels[last]) then Some(Apply(c, s, labels[last])) else None
  }

  ghost predicate Reachable(c: Config, s: State) {
    exists labels :: After(c, labels) == Some(s)
  }

  // What every step keeps: the GETs on the wire

  /** Every early GET in flight has a stall timer, and a timer that fired has
      waited the hedge delay since the dispatch. */
  ghost predicate TimersOk(c: Config, now: nat, r: Round) {
    && r.stalls.Keys == r.active
    && |r.stalls| <= MAX_CONCURRENT_EARLY_READS
    && (forall p :: p in r.stalls && r.stalls[p].Sleeping? ==> p in r.dispatchedAt)
    && (forall p :: p in r.stalls && r.stalls[p].Fired? ==> Waited(c, now, r, p))
  }

  /** The engine's books agree with the wire. */
  ghost predicate WireOk(r: Round, phase: Phase) {
    && r.gets == |r.asked|
    && r.answers.Keys <= r.asked
    && r.attempted <= r.asked
    && r.active <= r.attempted
    && r.notFound == Misses(r.answers)
    && (!phase.Done? ==> forall p :: p in r.InFlight() <==> p in r.active || IsAsking(phase, p))
    && (InEarlyPhase(phase) ==> r.asked == r.attempted)
  }

  /** The ordinary path runs only where one more GET is admitted. */
  ghost predicate SweepOk(r: Round, w: Sweep) {
    && NoDup(w.todo)
    && (forall p :: p in w.todo && p in r.asked ==> p in r.attempted)
    && w.finalIds <= r.asked + Elems(w.todo)
    && (w.asking.Some? ==> w.ordinary.Running? && w.asking.value !in r.attempted)
    && (w.ordinary.Swept? ==> w.todo == [])
    && (w.early.Drained? ==> r.active == {})
    && (w.slot || !w.ordinary.AwaitingSlot? ==> AdmitAnother(r.stalls))
  }

  ghost predicate Inv(c: Config, s: State) {
    && TimersOk(c, s.now, s.round)
    && WireOk(s.round, s.phase)
    && (s.phase.Sweeping? ==> SweepOk(s.round, s.phase.sweep))
    && |s.round.attempted| <= c.MaxEarlyReads()
    && (s.phase.Starting? ==> s.round.InFlight() == {})
  }

  lemma InitInv(c: Config)
    ensures Inv(c, Init())
  {
    assert Init().round.InFlight() == {};
  }

  lemma StartEarlyTimers(c: Config, now: nat, r: Round, p: Peer)
    requires TimersOk(c, now, r) && AdmitAnother(r.stalls) && p !in r.active
    ensures TimersOk(c, now, StartEarly(r, p))
  {
    assert |r.stalls[p := Undispatched]| == |r.stalls| + 1;
  }

  lemma AskOne(asked: set<Peer>, answered: set<Peer>, p: Peer)
    requires answered <= asked && p !in asked
    ensures forall q :: q in (asked + {p}) - answered <==> q in asked - answered || q == p
    ensures |asked + {p}| == |asked| + 1
  {
  }

  lemma StartEarlyWire(r: Round, p: Peer)
    requires WireOk(r, Choosing) && p !in r.attempted
    ensures WireOk(StartEarly(r, p), Waiting)
  {
    AskOne(r.asked, r.answers.Keys, p);
  }

  lemma TryEarlyKeeps(c: Config, s: State, choice: nat)
    requires Injective(c.dist) && Inv(c, s) && s.phase.Choosing?
    ensures Inv(c, ApplyTryEarly(c, s, choice))
  {
    var r := s.round;
    NextEarlyContract(r.hints, r.attempted, |r.attempted| < c.Allowance(), choice, c.dist);
    match NextEarly(r.hints, r.attempted, |r.attempted| < c.Allowance(), choice, c.dist)
    case None =>
    case Some(p) =>
      assert p !in r.attempted;
      if AdmitAnother(r.stalls) && |r.attempted| < c.MaxEarlyReads() {
        StartEarlyTimers(c, s.now, r, p);
        StartEarlyWire(r, p);
        assert ApplyTryEarly(c, s, choice) == s.(phase := Waiting, round := StartEarly(r, p));
      }
  }

  // One lemma a label and predicate keeps each obligation small.

  lemma DispatchTimers(c: Config, now: nat, r: Round, p: Peer)
    requires TimersOk(c, now, r) && p in r.stalls && r.stalls[p].Undispatched?
    ensures TimersOk(c, now, r.(stalls := r.stalls[p := Sleeping], dispatchedAt := r.dispatchedAt[p := now]))
  {
    assert r.stalls[p := Sleeping].Keys == r.stalls.Keys;
    assert |r.stalls[p := Sleeping]| == |r.stalls[p := Sleeping].Keys| == |r.stalls|;
  }

  lemma FireTimers(c: Config, now: nat, r: Round, p: Peer)
    requires TimersOk(c, now, r) && p in r.stalls && Waited(c, now, r, p)
    ensures TimersOk(c, now, r.(stalls := r.stalls[p := Fired]))
    ensures AdmitAnother(r.stalls) ==> AdmitAnother(r.stalls[p := Fired])
  {
    assert r.stalls[p := Fired].Keys == r.stalls.Keys;
    assert |r.stalls[p := Fired]| == |r.stalls[p := Fired].Keys| == |r.stalls|;
  }

  function Answered(r: Round, p: Peer, answer: Answer): Round {
    r.(active := r.active - {p}, stalls := r.stalls - {p}, answers := r.answers[p := answer],
       notFound := if answer.Missing? then r.notFound + {p} else r.notFound)
  }

  lemma AnswerTimers(c: Config, now: nat, r: Round, p: Peer, answer: Answer)
    requires TimersOk(c, now, r)
    ensures TimersOk(c, now, Answered(r, p, answer))
    ensures AdmitAnother(r.stalls) ==> AdmitAnother(Answered(r, p, answer).stalls)
  {
    SubsetCardinality((r.stalls - {p}).Keys, r.stalls.Keys);
    assert |r.stalls - {p}| == |(r.stalls - {p}).Keys|;
  }

  lemma AnswerMisses(r: Round, p: Peer, answer: Answer)
    requires p !in r.answers
    ensures Misses(r.answers[p := answer]) == if answer.Missing? then Misses(r.answers) + {p} else Misses(r.answers)
  {
  }

  lemma AnswerWire(r: Round, phase: Phase, p: Peer, answer: Answer, next: Phase)
    requires WireOk(r, phase) && p in r.InFlight()
    requires next.Done? || forall q :: IsAsking(next, q) <==> IsAsking(phase, q) && q != p
    requires InEarlyPhase(next) ==> InEarlyPhase(phase)
    requires !phase.Done?
    ensures WireOk(Answered(r, p, answer), next)
  {
    AnswerMisses(r, p, answer);
    assert Answered(r, p, answer).InFlight() == r.InFlight() - {p};
  }

  lemma AnswerSweep(r: Round, w: Sweep, p: Peer, answer: Answer, early: EarlyTask)
    requires SweepOk(r, w) && p in r.active && early.Offering?
    requires AdmitAnother(r.stalls) ==> AdmitAnother(Answered(r, p, answer).stalls)
    ensures SweepOk(Answered(r, p, answer), w.(early := early))
  {
  }

  lemma SettleShape(s: State, p: Peer, answer: Answer, next: Phase)
    ensures var t := Settle(s, p, answer, next);
            && t.round == s.round.(answers := s.round.answers[p := answer],
                                   notFound := if answer.Missing? then s.round.notFound + {p} else s.round.notFound)
            && (t.phase == next || t.phase.Done?)
            && t.now == s.now
  {
  }

  lemma AskingInFlight(c: Config, now: nat, r: Round, phase: Phase, p: Peer)
    requires TimersOk(c, now, r) && WireOk(r, phase) && IsAsking(phase, p) && SweepOk(r, phase.sweep)
    ensures p in r.InFlight()
    ensures r.stalls - {p} == r.stalls && r.active - {p} == r.active
  {
    assert p !in r.active;
  }

  lemma EarlyAnswerShape(s: State, p: Peer, answer: Answer)
    ensures var t := ApplyEarlyAnswer(s, p, answer);
            && t.round == Answered(s.round, p, answer)
            && (t.phase == AfterEarlyEvent(s.phase) || t.phase.Done?)
            && t.now == s.now
  {
  }

  lemma EarlyAnswerKeeps(c: Config, s: State, p: Peer, answer: Answer)
    requires Inv(c, s) && Listening(s.phase) && p in s.round.active
    ensures Inv(c, ApplyEarlyAnswer(s, p, answer))
  {
    hide TimersOk, WireOk, SweepOk, ApplyEarlyAnswer;
    var r, t := s.round, ApplyEarlyAnswer(s, p, answer);
    EarlyAnswerShape(s, p, answer);
    AnswerTimers(c, s.now, r, p, answer);
    EarlyAnswerWire(r, s.phase, p, answer, t.phase);
    if t.phase.Sweeping? { AnswerSweep(r, s.phase.sweep, p, answer, Offering); }
  }

  lemma EarlyAnswerWire(r: Round, phase: Phase, p: Peer, answer: Answer, next: Phase)
    requires WireOk(r, phase) && Listening(phase) && p in r.active
    requires phase.Sweeping? ==> SweepOk(r, phase.sweep)
    requires next == AfterEarlyEvent(phase) || next.Done?
    ensures WireOk(Answered(r, p, answer), next)
  {
    AnswerWire(r, phase, p, answer, next);
  }

  lemma OrdinaryAnswerKeeps(c: Config, s: State, p: Peer, answer: Answer)
    requires Inv(c, s) && IsAsking(s.phase, p)
    ensures Inv(c, ApplyOrdinaryAnswer(s, p, answer))
  {
    hide TimersOk, WireOk, SweepOk, Settle;
    var r, t := s.round, ApplyOrdinaryAnswer(s, p, answer);
    AskingInFlight(c, s.now, r, s.phase, p);
    SettleShape(s, p, answer, Sweeping(s.phase.sweep.(asking := None)));
    assert t.round == Answered(r, p, answer);
    AnswerTimers(c, s.now, r, p, answer);
    AnswerWire(r, s.phase, p, answer, t.phase);
    OrdinaryAnswerSweep(r, s.phase.sweep, p, answer);
  }

  lemma OrdinaryAnswerSweep(r: Round, w: Sweep, p: Peer, answer: Answer)
    requires SweepOk(r, w) && r.active - {p} == r.active && r.stalls - {p} == r.stalls
    ensures SweepOk(Answered(r, p, answer), w.(asking := None))
  {
  }

  lemma DiscoveredSweep(c: Config, s: State, closest: seq<Peer>, known: seq<Peer>, choices: nat -> nat)
    requires Injective(c.dist) && Inv(c, s) && s.phase.Waiting?
    ensures Inv(c, ApplyDiscovered(c, s, closest, known, choices))
  {
    TargetsSound(closest, known, choices, c.dist);
  }

  lemma AskNextKeeps(c: Config, s: State)
    requires Inv(c, s) && s.phase.Sweeping? && s.phase.sweep.ordinary.Running? && s.phase.sweep.asking.None?
    ensures Inv(c, ApplyAskNext(s))
  {
    hide TimersOk, WireOk, SweepOk;
    var r, w := s.round, s.phase.sweep;
    if w.todo == [] {
      SweptSweep(r, s.phase);
    } else if w.todo[0] in r.attempted {
      SkipSweep(r, s.phase);
    } else {
      AskNextSweep(r, w);
      AskNextWire(r, s.phase);
      SameTimers(c, s.now, r, r.(gets := r.gets + 1, asked := r.asked + {w.todo[0]}));
    }
  }

  lemma SweptSweep(r: Round, phase: Phase)
    requires WireOk(r, phase) && phase.Sweeping? && SweepOk(r, phase.sweep)
    requires phase.sweep.ordinary.Running? && phase.sweep.asking.None? && phase.sweep.todo == []
    ensures WireOk(r, Sweeping(phase.sweep.(ordinary := Swept))) && SweepOk(r, phase.sweep.(ordinary := Swept))
  {
  }

  lemma SkipSweep(r: Round, phase: Phase)
    requires WireOk(r, phase) && phase.Sweeping? && SweepOk(r, phase.sweep)
    requires phase.sweep.ordinary.Running? && phase.sweep.todo != [] && phase.sweep.todo[0] in r.attempted
    ensures WireOk(r, Sweeping(phase.sweep.(todo := phase.sweep.todo[1..])))
    ensures SweepOk(r, phase.sweep.(todo := phase.sweep.todo[1..]))
  {
    var todo := phase.sweep.todo;
    assert todo == [todo[0]] + todo[1..];
  }

  lemma SameTimers(c: Config, now: nat, r: Round, t: Round)
    requires TimersOk(c, now, r) && t.stalls == r.stalls && t.active == r.active && t.dispatchedAt == r.dispatchedAt
    ensures TimersOk(c, now, t)
  {
  }

  lemma AskNextSweep(r: Round, w: Sweep)
    requires SweepOk(r, w) && w.ordinary.Running? && w.asking.None? && w.todo != []
    requires w.todo[0] !in r.attempted
    ensures SweepOk(r.(gets := r.gets + 1, asked := r.asked + {w.todo[0]}),
                    w.(todo := w.todo[1..], asking := Some(w.todo[0])))
  {
    assert w.todo == [w.todo[0]] + w.todo[1..];
  }

  lemma AskNextWire(r: Round, phase: Phase)
    requires WireOk(r, phase) && phase.Sweeping? && phase.sweep.asking.None? && phase.sweep.todo != []
    requires SweepOk(r, phase.sweep) && phase.sweep.todo[0] !in r.attempted
    ensures WireOk(r.(gets := r.gets + 1, asked := r.asked + {phase.sweep.todo[0]}),
                   Sweeping(phase.sweep.(todo := phase.sweep.todo[1..], asking := Some(phase.sweep.todo[0]))))
  {
    var p := phase.sweep.todo[0];
    NotAskedYet(r, phase.sweep);
    WireGrows(r, phase, p, Sweeping(phase.sweep.(todo := phase.sweep.todo[1..], asking := Some(p))));
  }

  /** One more GET, asked on the ordinary path. */
  lemma WireGrows(r: Round, phase: Phase, p: Peer, next: Phase)
    requires WireOk(r, phase) && !phase.Done? && p !in r.asked
    requires forall q :: !IsAsking(phase, q)
    requires next.Sweeping? && next.sweep.asking == Some(p)
    ensures WireOk(r.(gets := r.gets + 1, asked := r.asked + {p}), next)
  {
    hide Misses;
    AskOne(r.asked, r.answers.Keys, p);
  }

  lemma NotAskedYet(r: Round, w: Sweep)
    requires SweepOk(r, w) && w.todo != [] && w.todo[0] !in r.attempted
    ensures w.todo[0] !in r.asked
  {
    assert w.todo[0] in w.todo;
  }

  lemma DispatchKeeps(c: Config, s: State, p: Peer)
    requires Inv(c, s) && !s.phase.Starting? && p in s.round.stalls && s.round.stalls[p].Undispatched?
    ensures Inv(c, ApplyDispatch(s, p))
  {
    hide TimersOk, WireOk, SweepOk;
    var r, t := s.round, ApplyDispatch(s, p);
    DispatchTimers(c, s.now, r, p);
    SameWire(r, t.round, s.phase, s.phase);
    if s.phase.Sweeping? { DispatchSweep(r, s.phase.sweep, p, s.now); }
  }

  lemma DispatchSweep(r: Round, w: Sweep, p: Peer, now: nat)
    requires SweepOk(r, w) && p in r.stalls && r.stalls[p].Undispatched?
    ensures SweepOk(r.(stalls := r.stalls[p := Sleeping], dispatchedAt := r.dispatchedAt[p := now]), w)
  {
    assert !AdmitAnother(r.stalls);
  }

  /** A change that leaves the wire alone keeps the books. */
  lemma SameWire(r: Round, t: Round, phase: Phase, next: Phase)
    requires WireOk(r, phase)
    requires t.gets == r.gets && t.asked == r.asked && t.answers == r.answers
    requires t.attempted == r.attempted && t.active == r.active && t.notFound == r.notFound
    requires phase.Done? ==> next.Done?
    requires next.Done? || forall q :: IsAsking(next, q) <==> IsAsking(phase, q)
    requires InEarlyPhase(next) ==> InEarlyPhase(phase)
    ensures WireOk(t, next)
  {
    assert t.InFlight() == r.InFlight();
  }

  lemma StallFiresKeeps(c: Config, s: State, p: Peer)
    requires Inv(c, s) && Listening(s.phase) && p in s.round.stalls && Waited(c, s.now, s.round, p)
    ensures Inv(c, ApplyStallFires(s, p))
  {
    hide TimersOk, WireOk, SweepOk;
    var r, t := s.round, ApplyStallFires(s, p);
    FireTimers(c, s.now, r, p);
    SameWire(r, t.round, s.phase, t.phase);
    if s.phase.Sweeping? { FireSweep(r, s.phase.sweep, p); }
  }

  lemma FireSweep(r: Round, w: Sweep, p: Peer)
    requires SweepOk(r, w) && w.early.Racing?
    requires AdmitAnother(r.stalls) ==> AdmitAnother(r.stalls[p := Fired])
    ensures SweepOk(r.(stalls := r.stalls[p := Fired]), w.(early := Offering))
  {
  }

  /** The steps that only move the two sweeping tasks along. */
  lemma TaskKeeps(c: Config, s: State, w: Sweep)
    requires Inv(c, s) && s.phase.Sweeping? && SweepOk(s.round, w) && w.asking == s.phase.sweep.asking
    ensures Inv(c, s.(phase := Sweeping(w)))
  {
    hide TimersOk, WireOk, SweepOk;
    SameWire(s.round, s.round, s.phase, Sweeping(w));
  }

  lemma TakeSlotSweep(r: Round, w: Sweep)
    requires SweepOk(r, w) && r.stalls.Keys == r.active && w.ordinary.AwaitingSlot?
    requires w.slot || w.early.Drained?
    ensures SweepOk(r, w.(ordinary := Running))
  {
    assert w.early.Drained? ==> |r.stalls| == |r.stalls.Keys| == 0;
  }

  lemma TickKeeps(c: Config, s: State, elapsed: nat)
    requires Inv(c, s)
    ensures Inv(c, s.(now := s.now + elapsed))
  {
    hide WireOk, SweepOk;
  }

  lemma NewRoundKeeps(c: Config, s: State, skipped: set<Peer>)
    ensures Inv(c, s.(phase := Choosing, round := NewRound(skipped)))
  {
    assert NewRound(skipped).InFlight() == {};
  }

  lemma PublishKeeps(c: Config, s: State, hints: seq<Peer>)
    requires Inv(c, s) && InEarlyPhase(s.phase)
    ensures Inv(c, s.(round := s.round.(hints := hints)))
  {
    hide TimersOk, WireOk, SweepOk;
    SameTimers(c, s.now, s.round, s.round.(hints := hints));
    SameWire(s.round, s.round.(hints := hints), s.phase, s.phase);
  }

  lemma HintsChangedKeeps(c: Config, s: State, open: bool)
    requires Inv(c, s) && s.phase.Waiting?
    ensures Inv(c, s.(phase := Choosing, round := s.round.(updatesOpen := open)))
  {
    hide TimersOk, WireOk, SweepOk;
    SameTimers(c, s.now, s.round, s.round.(updatesOpen := open));
    SameWire(s.round, s.round.(updatesOpen := open), s.phase, Choosing);
  }

  /** The end of a round decides the read or starts a rest, and changes nothing else. */
  lemma EndRoundShape(c: Config, s: State, refused: map<Peer, nat>, remaining: nat)
    requires s.phase.Sweeping?
    ensures var t := ApplyEndRound(c, s, refused, remaining);
      && t == s.(phase := t.phase, retried := t.retried, refusalWaits := t.refusalWaits)
      && (t.phase.Starting? || t.phase == Done(Absent) || t.phase == Done(Busy))
  {
    hide Hiding, IsAuthoritativeNotFound;
  }

  lemma EndRoundKeeps(c: Config, s: State, refused: map<Peer, nat>, remaining: nat)
    requires Inv(c, s) && s.phase.Sweeping? && s.phase.sweep.ordinary.Swept? && s.phase.sweep.early.Drained?
    ensures Inv(c, ApplyEndRound(c, s, refused, remaining))
  {
    hide TimersOk, WireOk, SweepOk, ApplyEndRound;
    var t := ApplyEndRound(c, s, refused, remaining);
    EndRoundShape(c, s, refused, remaining);
    EmptyWire(s.round, s.phase);
    SameWire(s.round, s.round, s.phase, t.phase);
  }

  lemma EmptyWire(r: Round, phase: Phase)
    requires WireOk(r, phase) && phase.Sweeping? && SweepOk(r, phase.sweep)
    requires phase.sweep.ordinary.Swept? && phase.sweep.early.Drained?
    ensures r.InFlight() == {} && r.answers.Keys == r.asked && phase.sweep.finalIds <= r.asked
    ensures phase.sweep.asking.None?
  {
    assert forall p :: p !in r.InFlight();
  }

  /** Every enabled step keeps the invariant. */
  lemma StepKeeps(c: Config, s: State, l: Label)
    requires Injective(c.dist) && Inv(c, s) && Enabled(c, s, l)
    ensures Inv(c, Apply(c, s, l))
  {
    match l
    case Tick(elapsed) => TickKeeps(c, s, elapsed);
    case StartRound(skipped) => NewRoundKeeps(c, s, skipped);
    case Publish(hints) => PublishKeeps(c, s, hints);
    case Dispatch(p) => DispatchKeeps(c, s, p);
    case TryEarly(choice) => TryEarlyKeeps(c, s, choice);
    case HintsChanged(open) => HintsChangedKeeps(c, s, open);
    case StallFires(p) => StallFiresKeeps(c, s, p);
    case EarlyAnswer(p, answer) => EarlyAnswerKeeps(c, s, p, answer);
    case Discovered(closest, known, choices) => DiscoveredSweep(c, s, closest, known, choices);
    case OfferSlot => TaskKeeps(c, s, ApplyOfferSlot(s).phase.sweep);
    case EarlyEnds => TaskKeeps(c, s, s.phase.sweep.(early := Drained));
    case TakeSlot =>
      TakeSlotSweep(s.round, s.phase.sweep);
      TaskKeeps(c, s, s.phase.sweep.(ordinary := Running));
    case AskNext => AskNextKeeps(c, s);
    case OrdinaryAnswer(p, answer) => OrdinaryAnswerKeeps(c, s, p, answer);
    case EndRound(refused, remaining) => EndRoundKeeps(c, s, refused, remaining);
  }

  // Whole runs

  lemma {:induction false} RunKeeps(c: Config, labels: seq<Label>)
    requires Injective(c.dist) && After(c, labels).Some?
    ensures Inv(c, After(c, labels).value)
  {
    if labels == [] {
      InitInv(c);
    } else {
      var last := |labels| - 1;
      RunKeeps(c, labels[..last]);
      StepKeeps(c, After(c, labels[..last]).value, labels[last]);
    }
  }

  lemma ReachableInv(c: Config, s: State)
    requires Injective(c.dist) && Reachable(c, s)
    ensures Inv(c, s)
  {
    var labels :| After(c, labels) == Some(s);
    RunKeeps(c, labels);
  }
}
