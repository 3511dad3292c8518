/** What the network, the clock and the adapter saw of a progressive read, taken
    from the labels of a run alone, and why the engine's books agree with it. */
module ReadTrace {
  import opened Prelude
  import opened Sorting
  import opened ReadOrder
  import opened ProgressiveRead

  /** One round: who was refused when it began and when it ended, the hints last
      published, whether they came after the last pass of the early loop and whether
      more may come, when early GETs were dispatched, who answered what and how many
      answers came, what discovery found, and when the round ended. */
  datatype RoundSeen = RoundSeen(
    refusedBefore: set<Peer>,
    hints: seq<Peer>,
    unread: bool,
    open: bool,
    dispatched: map<Peer, nat>,
    answers: map<Peer, Answer>,
    heard: nat,
    closest: seq<Peer>,
    known: seq<Peer>,
    refusedAfter: map<Peer, nat>,
    endedAt: nat)

  /** The finished rounds and the one under way. */
  datatype Seen = Seen(clock: nat, rounds: seq<RoundSeen>, current: RoundSeen)

  function Opened(skipped: set<Peer>): RoundSeen {
    RoundSeen(skipped, [], false, true, map[], map[], 0, [], [], map[], 0)
  }

  function Heard(x: Seen, p: Peer, answer: Answer): Seen {
    x.(current := x.current.(answers := x.current.answers[p := answer], heard := x.current.heard + 1))
  }

  function See(x: Seen, l: Label): Seen {
    match l
    case Tick(elapsed) => x.(clock := x.clock + elapsed)
    case StartRound(skipped) => x.(current := Opened(skipped))
    case Publish(hints) => x.(current := x.current.(hints := hints, unread := true))
    case TryEarly(_) => x.(current := x.current.(unread := false))
    case HintsChanged(open) => x.(current := x.current.(open := open))
    case Dispatch(p) => x.(current := x.current.(dispatched := x.current.dispatched[p := x.clock]))
    case EarlyAnswer(p, answer) => Heard(x, p, answer)
    case Discovered(closest, known, _) => x.(current := x.current.(closest := closest, known := known))
    case OrdinaryAnswer(p, answer) => Heard(x, p, answer)
    case EndRound(refused, _) =>
      x.(rounds := x.rounds + [x.current.(refusedAfter := refused, endedAt := x.clock)])
    case _ => x
  }

  /** What a run shows. */
  function Watch(labels: seq<Label>): Seen {
    if labels == [] then Seen(0, [], Opened({}))
    else See(Watch(labels[..|labels| - 1]), labels[|labels| - 1])
  }

  /** The peers whose answers can prove absence in a round. */
  function Final(c: Config, e: RoundSeen): set<Peer> {
    FinalSet(e.closest, e.known, c.dist)
  }

  /** The engine's clock and round are what was seen, each answer once, and its
      final set is that of what discovery found. */
  ghost predicate Agrees(c: Config, s: State, x: Seen) {
    && s.now == x.clock
    && s.round.refusedBefore == x.current.refusedBefore
    && s.round.hints == x.current.hints && s.round.updatesOpen == x.current.open
    && s.round.dispatchedAt == x.current.dispatched
    && s.round.answers == x.current.answers
    && x.current.heard == |x.current.answers|
    && (s.phase.Sweeping? ==> s.phase.sweep.finalIds == FinalSet(x.current.closest, x.current.known, c.dist))
  }

  /** The part of a round that comes from outside. */
  ghost predicate SameOutside(r: Round, t: Round) {
    && t.refusedBefore == r.refusedBefore && t.hints == r.hints && t.updatesOpen == r.updatesOpen
    && t.dispatchedAt == r.dispatchedAt && t.answers == r.answers
  }

  ghost predicate SameFinal(p: Phase, q: Phase) {
    q.Sweeping? ==> p.Sweeping? && q.sweep.finalIds == p.sweep.finalIds
  }

  /** A step of the engine's own. */
  lemma OwnStep(c: Config, s: State, t: State, x: Seen)
    requires Agrees(c, s, x) && t.now == s.now && SameOutside(s.round, t.round) && SameFinal(s.phase, t.phase)
    ensures Agrees(c, t, x)
  {
  }

  lemma TryEarlyAgrees(c: Config, s: State, t: State, x: Seen, y: Seen)
    requires Agrees(c, s, x) && t.now == s.now && SameOutside(s.round, t.round) && SameFinal(s.phase, t.phase)
    requires y == x.(current := x.current.(unread := y.current.unread))
    ensures Agrees(c, t, y)
  {
    hide FinalSet;
  }

  lemma AnswerAgrees(c: Config, s: State, t: State, x: Seen, p: Peer, answer: Answer)
    requires Agrees(c, s, x) && p !in s.round.answers && t.now == s.now
    requires SameOutside(s.round.(answers := s.round.answers[p := answer]), t.round) && SameFinal(s.phase, t.phase)
    ensures Agrees(c, t, Heard(x, p, answer))
  {
    assert |x.current.answers[p := answer]| == |x.current.answers| + 1;
  }

  lemma InFlightUnanswered(c: Config, s: State, p: Peer)
    requires Inv(c, s) && !s.phase.Done? && (p in s.round.active || IsAsking(s.phase, p))
    ensures p !in s.round.answers
  {
    assert p in s.round.InFlight();
  }

  lemma DiscoveredAgrees(c: Config, s: State, x: Seen, closest: seq<Peer>, known: seq<Peer>, choices: nat -> nat)
    requires Injective(c.dist) && Agrees(c, s, x)
    ensures Agrees(c, ApplyDiscovered(c, s, closest, known, choices), See(x, Discovered(closest, known, choices)))
  {
    hide Targets, IsTargetList, FinalSet, Elems, Injective, AdmitAnother;
    TargetsSound(closest, known, choices, c.dist);
    TargetsAreFinal(closest, known, Targets(closest, known, choices, c.dist), c.dist);
  }

  lemma StepAgrees(c: Config, s: State, x: Seen, l: Label)
    requires Injective(c.dist) && Inv(c, s) && Agrees(c, s, x) && Enabled(c, s, l)
    ensures Agrees(c, Apply(c, s, l), See(x, l))
  {
    hide Inv, FinalSet, AdmitAnother, NextEarly, Settle, ApplyEndRound;
    match l
    case EarlyAnswer(p, answer) =>
      InFlightUnanswered(c, s, p);
      EarlyAnswerShape(s, p, answer);
      AnswerAgrees(c, s, Apply(c, s, l), x, p, answer);
    case OrdinaryAnswer(p, answer) =>
      InFlightUnanswered(c, s, p);
      SettleShape(s, p, answer, Sweeping(s.phase.sweep.(asking := None)));
      AnswerAgrees(c, s, Apply(c, s, l), x, p, answer);
    case Discovered(closest, known, choices) => DiscoveredAgrees(c, s, x, closest, known, choices);
    case Tick(_) =>
    case StartRound(_) =>
    case Publish(_) =>
    case Dispatch(_) =>
    case HintsChanged(_) =>
    case TryEarly(_) => TryEarlyAgrees(c, s, Apply(c, s, l), x, See(x, l));
    case EndRound(refused, remaining) => EndRoundAgrees(c, s, x, refused, remaining);
    case _ => OwnStep(c, s, Apply(c, s, l), x);
  }

  lemma EndRoundAgrees(c: Config, s: State, x: Seen, refused: map<Peer, nat>, remaining: nat)
    requires Agrees(c, s, x) && s.phase.Sweeping?
    ensures Agrees(c, ApplyEndRound(c, s, refused, remaining), See(x, EndRound(refused, remaining)))
  {
    hide ApplyEndRound, FinalSet;
    EndRoundShape(c, s, refused, remaining);
  }

  /** In every run the engine's clock, its round and its final set are those the
      labels show. */
  lemma {:induction false} RunAgrees(c: Config, labels: seq<Label>)
    requires Injective(c.dist) && After(c, labels).Some?
    ensures Agrees(c, After(c, labels).value, Watch(labels))
  {
    if labels != [] {
      var last := |labels| - 1;
      RunAgrees(c, labels[..last]);
      RunKeeps(c, labels[..last]);
      StepAgrees(c, After(c, labels[..last]).value, Watch(labels[..last]), labels[last]);
    }
  }
}
