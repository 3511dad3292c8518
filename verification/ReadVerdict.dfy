/** How a progressive read ends, said from what the labels of its run show: which
    peers answered what, what discovery found, which peers were refused and when,
    and nothing of the engine's books. */
module ReadVerdict {
  import opened Prelude
  import opened Sorting
  import opened ReadOrder
  import opened ProgressiveRead
  import opened ReadTrace

  predicate Missed(e: RoundSeen, p: Peer) {
    p in e.answers && e.answers[p].Missing?
  }

  function MissedNearer(c: Config, e: RoundSeen, p: Peer): set<Peer> {
    set q | q in e.answers && Missed(e, q) && c.dist(q) < c.dist(p)
  }

  /** A refused peer that may still hide the record after this round: neither it nor
      a close group of nearer peers answered without the record. */
  predicate MayHide(c: Config, e: RoundSeen, p: Peer) {
    && (p in e.refusedBefore || p in e.refusedAfter)
    && !Missed(e, p) && |MissedNearer(c, e, p)| < CLOSE_GROUP_SIZE
  }

  ghost predicate Quiet(c: Config, e: RoundSeen) {
    forall p: Peer :: !MayHide(c, e, p)
  }

  /** The final set alone proves absence: it has a majority of a close group, and
      every one of it answered without the record. Early hints outside the final set
      are no part of it. */
  ghost predicate Conclusive(c: Config, e: RoundSeen) {
    |Final(c, e)| >= CLOSE_GROUP_MAJORITY && forall p :: p in Final(c, e) ==> Missed(e, p)
  }

  /** Nobody answered twice, every final peer answered, and nobody with the record
      or a fatal error. */
  ghost predicate Clean(c: Config, e: RoundSeen) {
    && e.heard == |e.answers|
    && Final(c, e) <= e.answers.Keys
    && forall p :: p in e.answers ==> e.answers[p].Missing? || e.answers[p].Retryable?
  }

  /** When the adapter tries a refused peer again, from the end of the round on. */
  function ReturnsIn(e: RoundSeen, p: Peer): nat {
    if p in e.refusedAfter then e.refusedAfter[p] else 0
  }

  /** How long the read rests after a round: a second, or until the first peer that
      may hide the record returns if that is later. */
  ghost predicate IsRest(c: Config, e: RoundSeen, rest: nat) {
    if Quiet(c, e) then rest == 1000
    else
      && (exists p :: MayHide(c, e, p) && rest == Max(ReturnsIn(e, p), 1000))
      && (forall p :: MayHide(c, e, p) ==> rest <= Max(ReturnsIn(e, p), 1000))
  }

  /** Rounds that waited for a refused peer. */
  ghost function Waits(c: Config, log: seq<RoundSeen>): nat {
    if log == [] then 0
    else Waits(c, log[..|log| - 1]) + if Quiet(c, log[|log| - 1]) then 0 else 1
  }

  /** What the finished rounds decide, if anything. */
  ghost function Verdict(c: Config, log: seq<RoundSeen>): Option<Outcome>
    requires log != []
  {
    var before, last := log[..|log| - 1], log[|log| - 1];
    if !Quiet(c, last) then
      if Waits(c, before) == MAX_REFUSAL_WAITS then Some(Busy) else None
    else if Conclusive(c, last) || Waits(c, before) < |before| then Some(Absent)
    else None
  }

  ghost predicate Undecided(c: Config, log: seq<RoundSeen>) {
    log == [] || (Undecided(c, log[..|log| - 1]) && Verdict(c, log).None?)
  }

  /** The rounds decided just now. */
  ghost predicate Decides(c: Config, log: seq<RoundSeen>, o: Outcome) {
    log != [] && Undecided(c, log[..|log| - 1]) && Verdict(c, log) == Some(o)
  }

  ghost predicate CountersOk(c: Config, s: State, x: Seen) {
    && Undecided(c, x.rounds)
    && s.refusalWaits == Waits(c, x.rounds)
    && Waits(c, x.rounds) + (if s.retried then 1 else 0) == |x.rounds|
  }

  /** A round begins when the rest after the one before it is over. */
  ghost predicate RestOk(c: Config, x: Seen, until: nat) {
    if x.rounds == [] then until == 0
    else
      var e := x.rounds[|x.rounds| - 1];
      e.endedAt <= until && IsRest(c, e, until - e.endedAt)
  }

  ghost predicate CleanSoFar(x: Seen) {
    forall p :: p in x.current.answers ==> x.current.answers[p].Missing? || x.current.answers[p].Retryable?
  }

  ghost predicate VerdictOk(c: Config, s: State, x: Seen) {
    && (forall e :: e in x.rounds ==> Clean(c, e))
    && match s.phase
       case Done(Absent) => Decides(c, x.rounds, Absent)
       case Done(Busy) => Decides(c, x.rounds, Busy)
       case Done(_) => CountersOk(c, s, x)
       case Starting(until) => CountersOk(c, s, x) && CleanSoFar(x) && RestOk(c, x, until)
       case _ => CountersOk(c, s, x) && CleanSoFar(x)
  }

  /** The round as it ends. */
  function Entry(x: Seen, refused: map<Peer, nat>): RoundSeen {
    x.current.(refusedAfter := refused, endedAt := x.clock)
  }

  /** The engine's set of hiding peers is that of the round. */
  lemma HidingIsMayHide(c: Config, e: RoundSeen, p: Peer)
    ensures p in Hiding(e.refusedBefore + e.refusedAfter.Keys, Misses(e.answers), c.dist) <==> MayHide(c, e, p)
  {
    assert NearerThan(Misses(e.answers), p, c.dist) == MissedNearer(c, e, p);
  }

  lemma QuietIsNoHiding(c: Config, e: RoundSeen)
    ensures var hiding := Hiding(e.refusedBefore + e.refusedAfter.Keys, Misses(e.answers), c.dist);
      && (Quiet(c, e) <==> hiding == {})
      && forall p :: p in hiding <==> MayHide(c, e, p)
  {
    hide Hiding, MayHide;
    forall p: Peer
      ensures p in Hiding(e.refusedBefore + e.refusedAfter.Keys, Misses(e.answers), c.dist) <==> MayHide(c, e, p)
    {
      HidingIsMayHide(c, e, p);
    }
  }

  lemma ShortestIsRest(c: Config, e: RoundSeen, hiding: set<Peer>, remaining: nat)
    requires hiding != {} && (forall p :: p in hiding <==> MayHide(c, e, p))
    requires IsShortest(e.refusedAfter, hiding, remaining)
    ensures IsRest(c, e, Max(remaining, CLOSE_GROUP_RETRY_DELAY))
  {
    hide MayHide;
  }

  lemma ConclusiveIsAuthoritative(c: Config, e: RoundSeen)
    ensures Conclusive(c, e) <==> IsAuthoritativeNotFound(|Final(c, e) * Misses(e.answers)|, |Final(c, e)|)
  {
    hide Final;
    var final := Final(c, e);
    var both := final * Misses(e.answers);
    SubsetCardinality(both, final);
    if Conclusive(c, e) {
      assert both == final;
    } else if |both| == |final| {
      assert forall p :: p in final ==> p in both;
    }
  }

  lemma {:induction false} UndecidedBound(c: Config, log: seq<RoundSeen>)
    requires Undecided(c, log)
    ensures Waits(c, log) <= MAX_REFUSAL_WAITS
    ensures |log| <= Waits(c, log) + 1
  {
    if log != [] {
      UndecidedBound(c, log[..|log| - 1]);
    }
  }

  /** One more finished round. */
  lemma RoundAdded(c: Config, log: seq<RoundSeen>, e: RoundSeen)
    ensures Waits(c, log + [e]) == Waits(c, log) + if Quiet(c, e) then 0 else 1
    ensures Undecided(c, log + [e]) <==> Undecided(c, log) && Verdict(c, log + [e]).None?
    ensures Verdict(c, log + [e]) ==
              if !Quiet(c, e) then (if Waits(c, log) == MAX_REFUSAL_WAITS then Some(Busy) else None)
              else if Conclusive(c, e) || Waits(c, log) < |log| then Some(Absent)
              else None
    ensures forall o :: Decides(c, log + [e], o) <==> Undecided(c, log) && Verdict(c, log + [e]) == Some(o)
  {
    assert (log + [e])[..|log + [e]| - 1] == log && (log + [e])[|log + [e]| - 1] == e;
  }

  /** The engine's branch and the verdict of the rounds agree. */
  lemma EndRoundDecides(c: Config, s: State, x: Seen, refused: map<Peer, nat>, remaining: nat)
    requires Enabled(c, s, EndRound(refused, remaining)) && Agrees(c, s, x)
    requires s.round.notFound == Misses(s.round.answers) && CountersOk(c, s, x)
    ensures var t, y := ApplyEndRound(c, s, refused, remaining), See(x, EndRound(refused, remaining));
            match t.phase
            case Starting(until) => CountersOk(c, t, y) && RestOk(c, y, until)
            case Done(o) => (o.Absent? || o.Busy?) && Decides(c, y.rounds, o)
            case _ => false
  {
    hide Quiet, Conclusive, Hiding, Misses, IsAuthoritativeNotFound, Waits, Undecided, Verdict, Decides, IsRest,
         FinalSet, IsShortest;
    var e := Entry(x, refused);
    RoundAdded(c, x.rounds, e);
    QuietIsNoHiding(c, e);
    ConclusiveIsAuthoritative(c, e);
    if Quiet(c, e) { QuietRest(c, e); } else {
      ShortestIsRest(c, e, Hiding(e.refusedBefore + refused.Keys, Misses(e.answers), c.dist), remaining);
    }
  }

  lemma QuietRest(c: Config, e: RoundSeen)
    requires Quiet(c, e)
    ensures IsRest(c, e, CLOSE_GROUP_RETRY_DELAY)
  {
  }

  lemma BooksAgree(c: Config, s: State)
    requires Inv(c, s)
    ensures s.round.notFound == Misses(s.round.answers)
  {
  }

  /** When a round ends every GET of it has been answered, once. */
  lemma RoundEndsAnswered(c: Config, s: State, refused: map<Peer, nat>, remaining: nat)
    requires Inv(c, s) && Enabled(c, s, EndRound(refused, remaining))
    ensures s.round.answers.Keys == s.round.asked && s.round.gets == |s.round.asked|
    ensures s.phase.sweep.finalIds <= s.round.asked
  {
    EmptyWire(s.round, s.phase);
  }

  lemma EndRoundClean(c: Config, s: State, x: Seen, refused: map<Peer, nat>, remaining: nat)
    requires Inv(c, s) && Agrees(c, s, x) && CleanSoFar(x) && Enabled(c, s, EndRound(refused, remaining))
    ensures Clean(c, Entry(x, refused))
  {
    RoundEndsAnswered(c, s, refused, remaining);
    hide Inv, FinalSet, Hiding, IsShortest;
  }

  lemma EndRoundVerdict(c: Config, s: State, x: Seen, refused: map<Peer, nat>, remaining: nat)
    requires Inv(c, s) && Agrees(c, s, x) && VerdictOk(c, s, x) && Enabled(c, s, EndRound(refused, remaining))
    ensures VerdictOk(c, ApplyEndRound(c, s, refused, remaining), See(x, EndRound(refused, remaining)))
  {
    hide Inv, Agrees, Clean, CountersOk, Decides, ApplyEndRound, RestOk, Hiding, IsShortest;
    BooksAgree(c, s);
    EndRoundClean(c, s, x, refused, remaining);
    EndRoundDecides(c, s, x, refused, remaining);
  }

  /** An answer that does not end the read leaves the round clean. */
  lemma AnswerVerdict(c: Config, s: State, t: State, x: Seen, p: Peer, answer: Answer)
    requires VerdictOk(c, s, x) && !s.phase.Done? && !t.phase.Starting?
    requires t.refusalWaits == s.refusalWaits && t.retried == s.retried
    requires match answer
             case Found(record) => t.phase == Done(Present(record))
             case Fatal(error) => t.phase == Done(Failed(error))
             case _ => !t.phase.Done?
    ensures VerdictOk(c, t, Heard(x, p, answer))
  {
    hide Clean, Undecided, Waits, RestOk;
  }

  lemma StepVerdict(c: Config, s: State, x: Seen, l: Label)
    requires Inv(c, s) && Agrees(c, s, x) && VerdictOk(c, s, x) && Enabled(c, s, l)
    ensures VerdictOk(c, Apply(c, s, l), See(x, l))
  {
    hide Inv, Agrees, Clean, Undecided, Waits, RestOk, ApplyEndRound, NextEarly, Targets, AdmitAnother;
    match l
    case EarlyAnswer(p, answer) => AnswerVerdict(c, s, Apply(c, s, l), x, p, answer);
    case OrdinaryAnswer(p, answer) => AnswerVerdict(c, s, Apply(c, s, l), x, p, answer);
    case EndRound(refused, remaining) => EndRoundVerdict(c, s, x, refused, remaining);
    case Tick(_) => TickVerdict(c, s, x, l);
    case _ =>
  }

  lemma TickVerdict(c: Config, s: State, x: Seen, l: Label)
    requires VerdictOk(c, s, x) && l.Tick? && Enabled(c, s, l)
    ensures VerdictOk(c, Apply(c, s, l), See(x, l))
  {
    hide Clean, Undecided, Waits, IsRest;
  }

  lemma {:induction false} RunVerdict(c: Config, labels: seq<Label>)
    requires Injective(c.dist) && After(c, labels).Some?
    ensures VerdictOk(c, After(c, labels).value, Watch(labels))
  {
    if labels != [] {
      var last := |labels| - 1;
      RunVerdict(c, labels[..last]);
      RunKeeps(c, labels[..last]);
      RunAgrees(c, labels[..last]);
      StepVerdict(c, After(c, labels[..last]).value, Watch(labels[..last]), labels[last]);
    }
  }

  lemma DecidedOnce(c: Config, log: seq<RoundSeen>)
    ensures forall o :: Decides(c, log, o) ==> !Undecided(c, log)
    ensures forall o, u :: Decides(c, log, o) && Decides(c, log, u) ==> o == u
  {
    hide Verdict;
  }

  lemma VerdictOf(c: Config, s: State, x: Seen)
    requires VerdictOk(c, s, x)
    ensures forall e :: e in x.rounds ==> Clean(c, e)
    ensures s.phase == Done(Absent) <==> Decides(c, x.rounds, Absent)
    ensures s.phase == Done(Busy) <==> Decides(c, x.rounds, Busy)
    ensures !(s.phase == Done(Absent) || s.phase == Done(Busy)) ==> Undecided(c, x.rounds)
  {
    hide Clean, Waits, RestOk, CleanSoFar, Undecided, Decides;
    DecidedOnce(c, x.rounds);
  }

  /** A read says "absent" or "busy" exactly when its finished rounds decide it,
      and at the first round that does. */
  lemma VerdictExact(c: Config, labels: seq<Label>)
    requires Injective(c.dist) && After(c, labels).Some?
    ensures var s, rounds := After(c, labels).value, Watch(labels).rounds;
      && (forall e :: e in rounds ==> Clean(c, e))
      && (s.phase == Done(Absent) <==> Decides(c, rounds, Absent))
      && (s.phase == Done(Busy) <==> Decides(c, rounds, Busy))
      && (!(s.phase == Done(Absent) || s.phase == Done(Busy)) ==> Undecided(c, rounds))
  {
    hide VerdictOk, Clean, After, Watch, Undecided, Decides;
    RunVerdict(c, labels);
    VerdictOf(c, After(c, labels).value, Watch(labels));
  }

  /** What "absent" rests on. */
  lemma AbsentJustified(c: Config, labels: seq<Label>)
    requires Injective(c.dist) && After(c, labels).Some? && After(c, labels).value.phase == Done(Absent)
    ensures var rounds := Watch(labels).rounds;
      && rounds != []
      && (forall e, p :: e in rounds && p in Final(c, e) ==> p in e.answers)
      && (forall e, p :: e in rounds && p in e.answers ==> e.answers[p].Missing? || e.answers[p].Retryable?)
      && Quiet(c, rounds[|rounds| - 1])
      && (Conclusive(c, rounds[|rounds| - 1])
          || exists i :: 0 <= i < |rounds| - 1 && Quiet(c, rounds[i]) && !Conclusive(c, rounds[i]))
  {
    hide Quiet, Conclusive, Final;
    VerdictExact(c, labels);
    var rounds := Watch(labels).rounds;
    var before := rounds[..|rounds| - 1];
    if !Conclusive(c, rounds[|rounds| - 1]) {
      var i := QuietRound(c, before);
      assert before[i] == rounds[i];
    }
  }

  lemma {:induction false} QuietRound(c: Config, log: seq<RoundSeen>) returns (i: nat)
    requires Undecided(c, log) && Waits(c, log) < |log|
    ensures i < |log| && Quiet(c, log[i]) && !Conclusive(c, log[i])
  {
    if Quiet(c, log[|log| - 1]) {
      i := |log| - 1;
    } else {
      i := QuietRound(c, log[..|log| - 1]);
    }
  }

  /** "Busy" takes four rounds that each left a refused peer hiding: three were
      waited out. */
  lemma BusyJustified(c: Config, labels: seq<Label>)
    requires Injective(c.dist) && After(c, labels).Some? && After(c, labels).value.phase == Done(Busy)
    ensures var rounds := Watch(labels).rounds;
      rounds != [] && !Quiet(c, rounds[|rounds| - 1]) && Waits(c, rounds) == MAX_REFUSAL_WAITS + 1
  {
    VerdictExact(c, labels);
  }

  /** The next round begins once the rest after the last one is over, and not
      before. */
  lemma RoundBeginsAfterRest(c: Config, labels: seq<Label>, skipped: set<Peer>)
    requires Injective(c.dist) && After(c, labels).Some? && After(c, labels).value.phase.Starting?
    requires Watch(labels).rounds != []
    ensures var x := Watch(labels);
      var e := x.rounds[|x.rounds| - 1];
      exists rest :: IsRest(c, e, rest)
        && (Enabled(c, After(c, labels).value, StartRound(skipped)) <==> x.clock >= e.endedAt + rest)
  {
    RunVerdict(c, labels);
    RunAgrees(c, labels);
    hide Clean, Undecided, Waits, IsRest, FinalSet, After, Watch;
    var s, x := After(c, labels).value, Watch(labels);
    var e := x.rounds[|x.rounds| - 1];
    assert IsRest(c, e, s.phase.until - e.endedAt);
  }

  /** Some peer sent this answer. */
  predicate Brings(l: Label, answer: Answer) {
    (l.EarlyAnswer? || l.OrdinaryAnswer?) && l.answer == answer
  }

  ghost predicate Sent(labels: seq<Label>, answer: Answer) {
    exists i :: 0 <= i < |labels| && Brings(labels[i], answer)
  }

  lemma SentLast(labels: seq<Label>, answer: Answer)
    requires labels != []
    ensures Sent(labels, answer) <==> Sent(labels[..|labels| - 1], answer) || Brings(labels[|labels| - 1], answer)
  {
  }

  lemma StepEnds(c: Config, s: State, l: Label)
    requires Enabled(c, s, l)
    ensures !s.phase.Done?
    ensures forall record :: Apply(c, s, l).phase == Done(Present(record)) <==> Brings(l, Found(record))
    ensures forall error :: Apply(c, s, l).phase == Done(Failed(error)) <==> Brings(l, Fatal(error))
  {
    hide NextEarly, Targets, AdmitAnother, Hiding, IsShortest, ApplyEndRound;
    match l
    case EndRound(refused, remaining) => EndRoundShape(c, s, refused, remaining);
    case _ =>
  }

  /** A record is returned exactly when a peer sent it, and an error exactly when a
      peer's answer was fatal. */
  lemma {:induction false} EndsAsSent(c: Config, labels: seq<Label>)
    requires After(c, labels).Some?
    ensures var s := After(c, labels).value;
      && (forall record :: s.phase == Done(Present(record)) <==> Sent(labels, Found(record)))
      && (forall error :: s.phase == Done(Failed(error)) <==> Sent(labels, Fatal(error)))
  {
    if labels != [] {
      hide Apply, Enabled, Sent, Brings;
      var last := |labels| - 1;
      EndsAsSent(c, labels[..last]);
      StepEnds(c, After(c, labels[..last]).value, labels[last]);
      forall a ensures Sent(labels, a) <==> Sent(labels[..last], a) || Brings(labels[last], a) { SentLast(labels, a); }
    }
  }

  /** Whoever answers was asked in this round. */
  lemma AnswererWasAsked(c: Config, s: State, l: Label)
    requires Injective(c.dist) && Reachable(c, s) && Enabled(c, s, l) && (l.EarlyAnswer? || l.OrdinaryAnswer?)
    ensures l.peer in s.round.asked
  {
    ReachableInv(c, s);
    hide TimersOk, SweepOk;
    assert l.peer in s.round.InFlight();
  }

  /** The read takes at most five rounds, the one under way included. */
  lemma AtMostFiveRounds(c: Config, labels: seq<Label>)
    requires Injective(c.dist) && After(c, labels).Some?
    ensures |Watch(labels).rounds| <= 5
    ensures !After(c, labels).value.phase.Done? ==> |Watch(labels).rounds| < 5
  {
    hide Quiet, Conclusive;
    VerdictExact(c, labels);
    var s, rounds := After(c, labels).value, Watch(labels).rounds;
    if s.phase == Done(Absent) || s.phase == Done(Busy) {
      UndecidedBound(c, rounds[..|rounds| - 1]);
    } else {
      UndecidedBound(c, rounds);
    }
  }
}
