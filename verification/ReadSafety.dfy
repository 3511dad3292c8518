/** What holds on the wire in every run of a progressive read, and why its sweep
    neither stops nor goes on for ever. */
module ReadSafety {
  import opened Prelude
  import opened Sorting
  import opened ReadOrder
  import opened ProgressiveRead
  import opened ReadTrace

  /** However hints, dispatches, timers, answers and discovery interleave, a
      read never has more than two GETs on the wire. */
  lemma AtMostTwoGets(c: Config, s: State)
    requires Injective(c.dist) && Reachable(c, s) && !s.phase.Done?
    ensures |s.round.InFlight()| <= 2
  {
    ReachableInv(c, s);
    InFlightBound(c, s);
  }

  lemma InFlightBound(c: Config, s: State)
    requires Inv(c, s) && !s.phase.Done?
    ensures |s.round.InFlight()| <= 2
  {
    var r := s.round;
    assert |r.stalls| == |r.stalls.Keys|;
    var asking := if s.phase.Sweeping? && s.phase.sweep.asking.Some? then {s.phase.sweep.asking.value} else {};
    assert |r.active| + |asking| <= 2;
    hide TimersOk, SweepOk;
    assert forall p :: p in r.InFlight() ==> p in r.active + asking;
    UnionBound(r.InFlight(), r.active, asking);
  }

  lemma UnionBound(s: set<Peer>, a: set<Peer>, b: set<Peer>)
    requires forall p :: p in s ==> p in a + b
    ensures |s| <= |a| + |b|
  {
    SubsetCardinality(s, a + b);
    assert a + b == a + (b - a);
    SubsetCardinality(b - a, b);
  }

  /** A GET starts only while every other GET on the wire has waited the hedge
      delay since its dispatch; this includes the ordinary path's first GETs
      beside early ones that outlived discovery. */
  lemma HedgeOnlyAfterStall(c: Config, labels: seq<Label>, l: Label, q: Peer)
    requires Injective(c.dist) && After(c, labels).Some? && Enabled(c, After(c, labels).value, l)
    requires var s := After(c, labels).value; Apply(c, s, l).round.gets > s.round.gets && q in s.round.InFlight()
    ensures var x := Watch(labels);
      q in x.current.dispatched && x.clock >= x.current.dispatched[q] + c.hedgeDelay
    ensures |After(c, labels).value.round.InFlight()| == 1
  {
    var s := After(c, labels).value;
    RunKeeps(c, labels);
    RunAgrees(c, labels);
    GetsStartWhere(c, s, l);
    hide Apply, Enabled;
    AdmittedAlone(c, s, q);
  }

  /** The two steps that start a GET. */
  lemma GetsStartWhere(c: Config, s: State, l: Label)
    requires s.phase.Sweeping? ==> SweepOk(s.round, s.phase.sweep)
    requires Enabled(c, s, l) && Apply(c, s, l).round.gets > s.round.gets
    ensures AdmitAnother(s.round.stalls)
    ensures s.phase.Choosing? || (s.phase.Sweeping? && s.phase.sweep.asking.None?)
  {
    hide Misses, NextEarly;
    match l
    case TryEarly(_) =>
    case AskNext =>
    case EarlyAnswer(p, answer) => EarlyAnswerShape(s, p, answer);
    case _ =>
  }

  lemma AdmittedAlone(c: Config, s: State, q: Peer)
    requires Inv(c, s) && AdmitAnother(s.round.stalls) && q in s.round.InFlight()
    requires s.phase.Choosing? || (s.phase.Sweeping? && s.phase.sweep.asking.None?)
    ensures Waited(c, s.now, s.round, q) && |s.round.InFlight()| == 1
  {
    hide SweepOk;
    var r := s.round;
    assert q in r.active && q in r.stalls;
    assert |r.stalls| == |r.stalls.Keys|;
    UnionBound(r.InFlight(), r.active, {});
    SubsetCardinality({q}, r.InFlight());
  }

  /** In a round no peer is asked twice, and early GETs number at most twice the
      allowance. */
  lemma NoPeerAskedTwice(c: Config, s: State)
    requires Injective(c.dist) && Reachable(c, s)
    ensures s.round.gets == |s.round.asked|
    ensures |s.round.attempted| <= 2 * Min(c.limit, MAX_GET_FALLBACK_PEERS)
    ensures InEarlyPhase(s.phase) ==> s.round.asked == s.round.attempted
  {
    ReachableInv(c, s);
  }

  // Which GETs start

  /** A hint may be asked early: it was not asked in this round, and either the
      allowance lasts or fewer than a close group of those asked are nearer. */
  predicate MayAskEarly(c: Config, asked: set<Peer>, p: Peer) {
    p !in asked && (|asked| < Min(c.limit, 20) || |NearerThan(asked, p, c.dist)| < CLOSE_GROUP_SIZE)
  }

  /** Fewer than twice the allowance were asked, nothing is on the wire but at most one
      GET whose timer fired, and some hint may be asked. */
  ghost predicate MayStartEarly(c: Config, r: Round, hints: seq<Peer>) {
    && |r.asked| < 2 * Min(c.limit, 20)
    && |r.InFlight()| < 2 && (forall p :: p in r.InFlight() ==> p in r.stalls && r.stalls[p].Fired?)
    && exists p :: p in hints && MayAskEarly(c, r.asked, p)
  }

  /** A pass of the early loop starts a GET exactly when it may, to one of the hints
      that may be asked. */
  lemma EarlyGetExact(c: Config, labels: seq<Label>, choice: nat)
    requires Injective(c.dist) && After(c, labels).Some? && After(c, labels).value.phase.Choosing?
    ensures var s, hints := After(c, labels).value, Watch(labels).current.hints;
      var r, t := s.round, Apply(c, s, TryEarly(choice)).round;
      && (t.gets > r.gets <==> MayStartEarly(c, r, hints))
      && (t.gets > r.gets ==> exists p :: p in hints && MayAskEarly(c, r.asked, p) && t.asked == r.asked + {p})
  {
    RunKeeps(c, labels);
    RunAgrees(c, labels);
    EarlyGet(c, After(c, labels).value, choice);
  }

  lemma FreeSlot(c: Config, s: State)
    requires Inv(c, s) && s.phase.Choosing?
    ensures var r := s.round;
      && r.asked == r.attempted && r.InFlight() == r.active
      && (AdmitAnother(r.stalls) <==>
            |r.InFlight()| < 2 && forall p :: p in r.InFlight() ==> p in r.stalls && r.stalls[p].Fired?)
  {
    hide SweepOk;
    var r := s.round;
    assert r.InFlight() == r.active;
    assert |r.stalls| == |r.stalls.Keys|;
  }

  lemma TryEarlyShape(c: Config, s: State, choice: nat)
    ensures var r, t := s.round, ApplyTryEarly(c, s, choice).round;
      var next := NextEarly(r.hints, r.attempted, |r.attempted| < c.Allowance(), choice, c.dist);
      if AdmitAnother(r.stalls) && |r.attempted| < c.MaxEarlyReads() && next.Some? then t == StartEarly(r, next.value)
      else t == r
  {
    hide NextEarly, AdmitAnother;
  }

  lemma EarlyGet(c: Config, s: State, choice: nat)
    requires Injective(c.dist) && Inv(c, s) && s.phase.Choosing?
    ensures var r, t := s.round, ApplyTryEarly(c, s, choice).round;
      && (t.gets > r.gets <==> MayStartEarly(c, r, r.hints))
      && (t.gets > r.gets ==> exists p :: p in r.hints && MayAskEarly(c, r.asked, p) && t.asked == r.asked + {p})
  {
    hide NextEarly, MayAskEarly, Injective, AdmitAnother, Inv, ApplyTryEarly;
    FreeSlot(c, s);
    TryEarlyShape(c, s, choice);
    HintExists(c, s.round, choice);
  }

  lemma HintExists(c: Config, r: Round, choice: nat)
    requires Injective(c.dist) && r.asked == r.attempted
    ensures var next := NextEarly(r.hints, r.attempted, |r.attempted| < c.Allowance(), choice, c.dist);
      && (next.Some? <==> exists p :: p in r.hints && MayAskEarly(c, r.asked, p))
      && (next.Some? ==> next.value in r.hints && MayAskEarly(c, r.asked, next.value))
  {
    var readable := Readable(r.hints, r.attempted, |r.attempted| < c.Allowance(), c.dist);
    forall p ensures p in readable <==> p in r.hints && MayAskEarly(c, r.asked, p) {
      ReadableIs(c, r.hints, r.asked, p);
    }
    hide NextEarly, Readable, MayAskEarly, HintCloseGroup, Injective;
    NextEarlyContract(r.hints, r.attempted, |r.attempted| < c.Allowance(), choice, c.dist);
    var next := NextEarly(r.hints, r.attempted, |r.attempted| < c.Allowance(), choice, c.dist);
    if next.Some? { assert next.value in readable; }
  }

  lemma ReadableIs(c: Config, hints: seq<Peer>, asked: set<Peer>, p: Peer)
    ensures p in Readable(hints, asked, |asked| < c.Allowance(), c.dist) <==> p in hints && MayAskEarly(c, asked, p)
  {
  }

  /** While the early loop waits, every GET it may start is out, unless hints came
      after its last pass. */
  ghost predicate NoneLeft(c: Config, s: State, x: Seen) {
    s.phase.Waiting? && !x.current.unread ==> !MayStartEarly(c, s.round, s.round.hints)
  }

  lemma TryEarlyLeavesNone(c: Config, s: State, choice: nat)
    requires Injective(c.dist) && Inv(c, s) && s.phase.Choosing?
    ensures var t := ApplyTryEarly(c, s, choice); !MayStartEarly(c, t.round, t.round.hints)
  {
    hide MayAskEarly, NextEarly, AdmitAnother, Inv, Injective, ApplyTryEarly;
    EarlyGet(c, s, choice);
    TryEarlyShape(c, s, choice);
    var r, t := s.round, ApplyTryEarly(c, s, choice).round;
    if t.gets > r.gets {
      var next := NextEarly(r.hints, r.attempted, |r.attempted| < c.Allowance(), choice, c.dist);
      FreeSlot(c, s);
      HintExists(c, r, choice);
      UnaskedStarts(c, s, next.value);
    }
  }

  lemma UnaskedStarts(c: Config, s: State, p: Peer)
    requires Inv(c, s) && MayAskEarly(c, s.round.asked, p)
    ensures var t := StartEarly(s.round, p); p in t.InFlight() && p in t.stalls && t.stalls[p].Undispatched?
  {
    hide TimersOk, SweepOk, Misses;
  }

  lemma DispatchLeavesNone(c: Config, s: State, p: Peer)
    requires Inv(c, s) && s.phase.Waiting? && p in s.round.stalls
    ensures var t := ApplyDispatch(s, p); !MayStartEarly(c, t.round, t.round.hints)
  {
    hide MayAskEarly, SweepOk, Misses;
    assert p in s.round.active && p in s.round.InFlight();
    var t := ApplyDispatch(s, p);
    assert p in t.round.InFlight() && !t.round.stalls[p].Fired?;
  }

  lemma WaitsBy(c: Config, s: State, l: Label)
    requires Enabled(c, s, l) && Apply(c, s, l).phase.Waiting?
    ensures l.Tick? || l.Publish? || l.TryEarly? || l.Dispatch?
    ensures l.TryEarly? ==> s.phase.Choosing? && Apply(c, s, l) == ApplyTryEarly(c, s, l.choice)
    ensures !l.TryEarly? ==> s.phase.Waiting?
    ensures l.Tick? ==> Apply(c, s, l).round == s.round
    ensures l.Dispatch? ==> l.peer in s.round.stalls && Apply(c, s, l) == ApplyDispatch(s, l.peer)
  {
    hide NextEarly, Targets, AdmitAnother, ApplyDispatch, ApplyEndRound;
    if l.EndRound? { EndRoundShape(c, s, l.refused, l.remaining); }
    if l.Dispatch? { DispatchStays(s, l.peer); }
  }

  lemma DispatchStays(s: State, p: Peer)
    ensures ApplyDispatch(s, p).phase == s.phase
  {
  }

  lemma StepNoneLeft(c: Config, s: State, x: Seen, l: Label)
    requires Injective(c.dist) && Inv(c, s) && NoneLeft(c, s, x) && Enabled(c, s, l)
    ensures NoneLeft(c, Apply(c, s, l), See(x, l))
  {
    hide MayStartEarly, Inv, Injective, Apply, Enabled;
    if Apply(c, s, l).phase.Waiting? {
      WaitsBy(c, s, l);
      match l
      case TryEarly(choice) => TryEarlyLeavesNone(c, s, choice);
      case Dispatch(p) => DispatchLeavesNone(c, s, p);
      case _ =>
    }
  }

  /** In every run the early loop waits with nothing left to start among the hints it
      has read. */
  lemma {:induction false} EveryHintTried(c: Config, labels: seq<Label>)
    requires Injective(c.dist) && After(c, labels).Some?
    ensures NoneLeft(c, After(c, labels).value, Watch(labels))
  {
    if labels != [] {
      hide Apply, Enabled, Inv, See, MayStartEarly;
      var last := |labels| - 1;
      EveryHintTried(c, labels[..last]);
      RunKeeps(c, labels[..last]);
      StepNoneLeft(c, After(c, labels[..last]).value, Watch(labels[..last]), labels[last]);
    }
  }

  /** The early GETs that outlived discovery admit the ordinary path, and it knows. */
  ghost predicate SlotOffered(s: State) {
    s.phase.Sweeping? && s.phase.sweep.ordinary.AwaitingSlot? && s.phase.sweep.early.Racing? ==>
      AdmitAnother(s.round.stalls) ==> s.phase.sweep.slot
  }

  lemma StepOffers(c: Config, s: State, l: Label)
    requires Enabled(c, s, l) && SlotOffered(s)
    ensures SlotOffered(Apply(c, s, l))
  {
    hide NextEarly, Targets, ApplyEndRound, Hiding, IsShortest;
    match l
    case EndRound(refused, remaining) => EndRoundShape(c, s, refused, remaining);
    case Dispatch(p) => NotAdmitted(s.round.stalls[p := Sleeping], p);
    case _ => hide AdmitAnother;
  }

  lemma NotAdmitted(stalls: Timers, p: Peer)
    requires p in stalls && !stalls[p].Fired?
    ensures !AdmitAnother(stalls)
  {
  }

  lemma {:induction false} RunOffers(c: Config, labels: seq<Label>)
    requires After(c, labels).Some?
    ensures SlotOffered(After(c, labels).value)
  {
    if labels != [] {
      hide Apply, Enabled, SlotOffered;
      var last := |labels| - 1;
      RunOffers(c, labels[..last]);
      StepOffers(c, After(c, labels[..last]).value, labels[last]);
    } else {
      assert SlotOffered(Init());
    }
  }

  /** The ordinary path never waits where a GET may join: as soon as at most one early
      GET is out, and has stalled, it can go on or is about to be told. */
  lemma OrdinaryJoins(c: Config, s: State)
    requires Reachable(c, s) && s.phase.Sweeping? && s.phase.sweep.ordinary.AwaitingSlot?
    requires AdmitAnother(s.round.stalls)
    ensures Enabled(c, s, TakeSlot) || Enabled(c, s, OfferSlot)
  {
    var labels :| After(c, labels) == Some(s);
    RunOffers(c, labels);
  }

  /** The ordinary path has gone through all of the list but what is left: whoever
      was passed was asked, early or now, and the last one passed may be on the wire. */
  ghost predicate Through(r: Round, w: Sweep, list: seq<Peer>) {
    && |w.todo| <= |list|
    && var k := |list| - |w.todo|;
       && w.todo == list[k..]
       && r.asked == r.attempted + Elems(list[..k])
       && (w.asking.Some? ==> k > 0 && w.asking.value == list[k - 1])
  }

  /** It goes, in order, through a target list of what discovery found. */
  ghost predicate InOrder(c: Config, s: State, x: Seen) {
    s.phase.Sweeping? ==>
      exists list :: IsTargetList(x.current.closest, x.current.known, list, c.dist)
        && Through(s.round, s.phase.sweep, list)
  }

  lemma AskThrough(s: State, list: seq<Peer>)
    requires s.phase.Sweeping? && s.phase.sweep.asking.None? && Through(s.round, s.phase.sweep, list)
    ensures var t := ApplyAskNext(s); t.phase.Sweeping? && Through(t.round, t.phase.sweep, list)
  {
    var w := s.phase.sweep;
    var k := |list| - |w.todo|;
    if w.todo != [] {
      assert w.todo[0] == list[k] && w.todo[1..] == list[k + 1..];
      assert list[..k + 1] == list[..k] + [list[k]];
      assert Elems(list[..k + 1]) == Elems(list[..k]) + {list[k]};
    }
  }

  lemma SameThrough(r: Round, w: Sweep, t: Round, v: Sweep, list: seq<Peer>)
    requires Through(r, w, list) && v.todo == w.todo && (v.asking == w.asking || v.asking.None?)
    requires t.asked == r.asked && t.attempted == r.attempted
    ensures Through(t, v, list)
  {
  }

  lemma StartsThrough(r: Round, w: Sweep, list: seq<Peer>)
    requires r.asked == r.attempted && w.todo == list && w.asking.None?
    ensures Through(r, w, list)
  {
    assert list[0..] == list && Elems(list[..0]) == {};
  }

  lemma DiscoveredInOrder(c: Config, s: State, x: Seen, l: Label)
    requires Injective(c.dist) && l.Discovered? && s.round.asked == s.round.attempted
    ensures InOrder(c, ApplyDiscovered(c, s, l.closest, l.known, l.choices), See(x, l))
  {
    hide Targets, IsTargetList, Injective, Through, AdmitAnother;
    var list := Targets(l.closest, l.known, l.choices, c.dist);
    TargetsSound(l.closest, l.known, l.choices, c.dist);
    var t := ApplyDiscovered(c, s, l.closest, l.known, l.choices);
    StartsThrough(t.round, t.phase.sweep, list);
  }

  /** The steps of a sweep that ask nobody. */
  lemma SweepOnward(c: Config, s: State, l: Label)
    requires s.phase.Sweeping? && Enabled(c, s, l) && !l.AskNext? && Apply(c, s, l).phase.Sweeping?
    ensures var t := Apply(c, s, l);
      && t.round.asked == s.round.asked && t.round.attempted == s.round.attempted
      && t.phase.sweep.todo == s.phase.sweep.todo
      && (t.phase.sweep.asking == s.phase.sweep.asking || t.phase.sweep.asking.None?)
  {
    hide AdmitAnother, Hiding, IsShortest, ApplyEndRound;
    if l.EndRound? { EndRoundShape(c, s, l.refused, l.remaining); }
  }

  lemma EntersBy(c: Config, s: State, l: Label)
    requires !s.phase.Sweeping? && Enabled(c, s, l) && Apply(c, s, l).phase.Sweeping?
    ensures l.Discovered? && s.phase.Waiting?
  {
    hide NextEarly, Targets, AdmitAnother;
  }

  lemma SameDiscovery(x: Seen, l: Label)
    requires !l.Discovered? && !l.StartRound?
    ensures See(x, l).current.closest == x.current.closest && See(x, l).current.known == x.current.known
  {
  }

  lemma StepInOrder(c: Config, s: State, x: Seen, l: Label)
    requires Injective(c.dist) && Inv(c, s) && InOrder(c, s, x) && Enabled(c, s, l)
    ensures InOrder(c, Apply(c, s, l), See(x, l))
  {
    var t := Apply(c, s, l);
    if t.phase.Sweeping? && !s.phase.Sweeping? {
      EntersBy(c, s, l);
      DiscoveredInOrder(c, s, x, l);
    } else if t.phase.Sweeping? {
      StayInOrder(c, s, x, l);
    }
  }

  lemma StayInOrder(c: Config, s: State, x: Seen, l: Label)
    requires InOrder(c, s, x) && Enabled(c, s, l) && s.phase.Sweeping? && Apply(c, s, l).phase.Sweeping?
    ensures InOrder(c, Apply(c, s, l), See(x, l))
  {
    assert !l.Discovered? && !l.StartRound? && (l.AskNext? ==> s.phase.sweep.asking.None?);
    var t := Apply(c, s, l);
    assert l.AskNext? ==> t == ApplyAskNext(s);
    SameDiscovery(x, l);
    var list :| IsTargetList(x.current.closest, x.current.known, list, c.dist)
      && Through(s.round, s.phase.sweep, list);
    hide Apply, Enabled, Through, IsTargetList, ApplyAskNext, See;
    if l.AskNext? {
      AskThrough(s, list);
    } else {
      SweepOnward(c, s, l);
      SameThrough(s.round, s.phase.sweep, t.round, t.phase.sweep, list);
    }
  }

  /** In every run the ordinary path goes through a target list of what discovery
      found, in its order, and skips only peers asked early. */
  lemma {:induction false} SweepsInOrder(c: Config, labels: seq<Label>)
    requires Injective(c.dist) && After(c, labels).Some?
    ensures InOrder(c, After(c, labels).value, Watch(labels))
  {
    if labels != [] {
      hide Apply, Enabled, Inv, See;
      var last := |labels| - 1;
      SweepsInOrder(c, labels[..last]);
      RunKeeps(c, labels[..last]);
      StepInOrder(c, After(c, labels[..last]).value, Watch(labels[..last]), labels[last]);
    }
  }

  lemma FreeSlotBefore(c: Config, s: State)
    requires Inv(c, s) && s.phase.Waiting?
    ensures var r := s.round;
      && r.InFlight() == r.active
      && (AdmitAnother(r.stalls) <==>
            |r.InFlight()| < 2 && forall p :: p in r.InFlight() ==> p in r.stalls && r.stalls[p].Fired?)
  {
    var r := s.round;
    FreeSlot(c, s.(phase := Choosing));
  }

  /** When discovery ends the ordinary path may ask at once exactly if a GET may join
      those in flight, and otherwise has an early GET to wait for. */
  lemma OrdinaryStarts(c: Config, s: State, l: Label)
    requires Injective(c.dist) && Reachable(c, s) && Enabled(c, s, l) && l.Discovered?
    ensures var t := Apply(c, s, l);
      && (Enabled(c, t, AskNext) <==>
            |s.round.InFlight()| < 2
            && forall p :: p in s.round.InFlight() ==> p in s.round.stalls && s.round.stalls[p].Fired?)
      && (!Enabled(c, t, AskNext) ==> s.round.InFlight() != {} && !t.phase.sweep.early.Drained?)
  {
    hide Apply, AdmitAnother, Inv, Reachable, Injective;
    ReachableInv(c, s);
    FreeSlotBefore(c, s);
    DiscoveredShape(c, s, l);
  }

  lemma DiscoveredShape(c: Config, s: State, l: Label)
    requires Enabled(c, s, l) && l.Discovered?
    ensures var t := Apply(c, s, l);
      && t.phase.Sweeping? && t.phase.sweep.asking.None?
      && (t.phase.sweep.ordinary.Running? <==> AdmitAnother(s.round.stalls))
      && (t.phase.sweep.early.Drained? <==> s.round.active == {})
      && (s.round.active == {} && s.round.stalls.Keys == s.round.active ==> AdmitAnother(s.round.stalls))
  {
    hide Targets;
    assert |s.round.stalls| == |s.round.stalls.Keys|;
  }

  // The sweep cannot be stuck

  /** An upper bound on the events left before the round ends. */
  function SweepWork(s: State): nat
    requires s.phase.Sweeping?
  {
    var w := s.phase.sweep;
    TimerWork(s.round.stalls)
    + (match w.early case Offering => 2 case Racing => 1 case Drained => 0)
    + (match w.ordinary case AwaitingSlot => 2 case Running => 1 case Swept => 0)
    + 2 * |w.todo| + (if w.asking.Some? then 1 else 0)
  }

  /** Six while undispatched, four while its timer runs, two once it fired. */
  function TimerWork(stalls: Timers): nat {
    2 * |stalls| + 2 * |Unfired(stalls)| + 2 * |Unsent(stalls)|
  }

  function Unfired(stalls: Timers): set<Peer> { set p | p in stalls && !stalls[p].Fired? }

  function Unsent(stalls: Timers): set<Peer> { set p | p in stalls && stalls[p].Undispatched? }

  lemma DispatchWork(stalls: Timers, p: Peer)
    requires p in stalls && stalls[p].Undispatched?
    ensures TimerWork(stalls[p := Sleeping]) + 2 == TimerWork(stalls)
  {
    var t := stalls[p := Sleeping];
    assert t.Keys == stalls.Keys && |t| == |t.Keys| && |stalls| == |stalls.Keys|;
    assert Unfired(t) == Unfired(stalls);
    assert Unsent(t) + {p} == Unsent(stalls);
  }

  lemma FireWork(stalls: Timers, p: Peer)
    requires p in stalls && stalls[p].Sleeping?
    ensures TimerWork(stalls[p := Fired]) + 2 == TimerWork(stalls)
  {
    var t := stalls[p := Fired];
    assert t.Keys == stalls.Keys && |t| == |t.Keys| && |stalls| == |stalls.Keys|;
    assert Unfired(t) + {p} == Unfired(stalls);
    assert Unsent(t) == Unsent(stalls);
  }

  lemma RetireWork(stalls: Timers, p: Peer)
    requires p in stalls
    ensures TimerWork(stalls - {p}) + 2 <= TimerWork(stalls)
  {
    var t := stalls - {p};
    assert t.Keys + {p} == stalls.Keys && |t| == |t.Keys| && |stalls| == |stalls.Keys|;
    SubsetCardinality(Unfired(t), Unfired(stalls));
    SubsetCardinality(Unsent(t), Unsent(stalls));
  }

  /** Every event of the sweep, whatever it is, leaves less work or ends it. */
  lemma SweepStepProgress(c: Config, s: State, l: Label)
    requires Injective(c.dist) && Reachable(c, s) && s.phase.Sweeping? && Enabled(c, s, l) && !l.Tick?
    ensures Apply(c, s, l).phase.Sweeping? ==> SweepWork(Apply(c, s, l)) < SweepWork(s)
  {
    ReachableInv(c, s);
    assert s.round.stalls.Keys == s.round.active;
    hide Inv, Reachable, Injective, Apply, Enabled, SweepWork;
    WorkDrops(c, s, l);
  }

  lemma WorkDrops(c: Config, s: State, l: Label)
    requires s.round.stalls.Keys == s.round.active && s.phase.Sweeping? && Enabled(c, s, l) && !l.Tick?
    ensures Apply(c, s, l).phase.Sweeping? ==> SweepWork(Apply(c, s, l)) < SweepWork(s)
  {
    hide SweepWork, ApplyEndRound, ApplyEarlyAnswer, ApplyOrdinaryAnswer, ApplyDispatch, ApplyStallFires,
         ApplyOfferSlot, ApplyAskNext, Hiding, IsShortest, Targets, AdmitAnother;
    match l
    case Dispatch(p) => DispatchProgress(s, p);
    case StallFires(p) => FireProgress(s, p);
    case EarlyAnswer(p, answer) => EarlyAnswerProgress(s, p, answer);
    case OfferSlot => TaskProgress(s);
    case EarlyEnds => TaskProgress(s);
    case TakeSlot => TaskProgress(s);
    case AskNext => AskProgress(s);
    case OrdinaryAnswer(p, answer) => OrdinaryAnswerProgress(s, p, answer);
    case EndRound(refused, remaining) => EndRoundShape(c, s, refused, remaining);
  }

  lemma DispatchProgress(s: State, p: Peer)
    requires s.phase.Sweeping? && p in s.round.stalls && s.round.stalls[p].Undispatched?
    ensures ApplyDispatch(s, p).phase.Sweeping? && SweepWork(ApplyDispatch(s, p)) < SweepWork(s)
  {
    hide TimerWork;
    DispatchWork(s.round.stalls, p);
  }

  lemma FireProgress(s: State, p: Peer)
    requires s.phase.Sweeping? && s.phase.sweep.early.Racing? && p in s.round.stalls && s.round.stalls[p].Sleeping?
    ensures ApplyStallFires(s, p).phase.Sweeping? && SweepWork(ApplyStallFires(s, p)) < SweepWork(s)
  {
    hide TimerWork;
    FireWork(s.round.stalls, p);
  }

  lemma EarlyAnswerProgress(s: State, p: Peer, answer: Answer)
    requires s.phase.Sweeping? && s.phase.sweep.early.Racing? && p in s.round.stalls
    ensures var t := ApplyEarlyAnswer(s, p, answer); t.phase.Sweeping? ==> SweepWork(t) < SweepWork(s)
  {
    hide TimerWork, ApplyEarlyAnswer;
    EarlyAnswerShape(s, p, answer);
    RetireWork(s.round.stalls, p);
  }

  lemma OrdinaryAnswerProgress(s: State, p: Peer, answer: Answer)
    requires IsAsking(s.phase, p)
    ensures var t := ApplyOrdinaryAnswer(s, p, answer); t.phase.Sweeping? ==> SweepWork(t) < SweepWork(s)
  {
    hide TimerWork, Settle;
    SettleShape(s, p, answer, Sweeping(s.phase.sweep.(asking := None)));
  }

  lemma TaskProgress(s: State)
    requires s.phase.Sweeping?
    ensures s.phase.sweep.early.Offering? ==>
              var t := ApplyOfferSlot(s); t.phase.Sweeping? && SweepWork(t) < SweepWork(s)
    ensures s.phase.sweep.early.Racing? ==>
              SweepWork(s.(phase := Sweeping(s.phase.sweep.(early := Drained)))) < SweepWork(s)
    ensures s.phase.sweep.ordinary.AwaitingSlot? ==>
              SweepWork(s.(phase := Sweeping(s.phase.sweep.(ordinary := Running)))) < SweepWork(s)
  {
    hide TimerWork;
  }

  lemma AskProgress(s: State)
    requires s.phase.Sweeping? && s.phase.sweep.ordinary.Running? && s.phase.sweep.asking.None?
    ensures ApplyAskNext(s).phase.Sweeping? && SweepWork(ApplyAskNext(s)) < SweepWork(s)
  {
    hide TimerWork;
  }

  /** The engine has a step of its own to take. */
  predicate EngineCanStep(c: Config, s: State) {
    Enabled(c, s, OfferSlot) || Enabled(c, s, EarlyEnds) || Enabled(c, s, TakeSlot) || Enabled(c, s, AskNext)
  }

  /** The GET to `p` is on the wire and the engine is listening for it. */
  ghost predicate AnswerHeard(c: Config, s: State, p: Peer) {
    && p in s.round.InFlight()
    && forall a: Answer :: Enabled(c, s, if IsAsking(s.phase, p) then OrdinaryAnswer(p, a) else EarlyAnswer(p, a))
  }

  /** While a round sweeps, the engine can step, or the round can end, or a GET
      is on the wire and its answer will be heard. In particular a wait for the
      slot always has an early GET to end it. */
  lemma SweepNeverStuck(c: Config, s: State, refused: map<Peer, nat>)
    requires Injective(c.dist) && Reachable(c, s) && s.phase.Sweeping?
    ensures || EngineCanStep(c, s)
            || (exists remaining :: Enabled(c, s, EndRound(refused, remaining)))
            || (exists p :: AnswerHeard(c, s, p))
  {
    ReachableInv(c, s);
    hide Inv, Enabled, AnswerHeard, EngineCanStep;
    var w := s.phase.sweep;
    if w.asking.Some? {
      AskingHeard(c, s, w.asking.value);
    } else if w.early.Racing? && s.round.active != {} {
      var p :| p in s.round.active;
      EarlyHeard(c, s, p);
    } else if w.ordinary.Swept? && w.early.Drained? {
      var remaining := RoundEnds(c, s, refused);
    } else {
      EngineSteps(c, s);
    }
  }

  lemma EngineSteps(c: Config, s: State)
    requires s.phase.Sweeping? && s.phase.sweep.asking.None?
    requires s.phase.sweep.early.Racing? ==> s.round.active == {}
    requires !(s.phase.sweep.ordinary.Swept? && s.phase.sweep.early.Drained?)
    ensures EngineCanStep(c, s)
  {
  }

  lemma AskingHeard(c: Config, s: State, p: Peer)
    requires Inv(c, s) && IsAsking(s.phase, p)
    ensures AnswerHeard(c, s, p)
  {
    hide TimersOk, SweepOk;
  }

  lemma EarlyHeard(c: Config, s: State, p: Peer)
    requires Inv(c, s) && Listening(s.phase) && p in s.round.active
    ensures AnswerHeard(c, s, p)
  {
    hide TimersOk;
  }

  lemma RoundEnds(c: Config, s: State, refused: map<Peer, nat>) returns (remaining: nat)
    requires s.phase.Sweeping? && s.phase.sweep.ordinary.Swept? && s.phase.sweep.early.Drained?
    ensures Enabled(c, s, EndRound(refused, remaining))
  {
    remaining := ShortestExists(refused, Hiding(s.round.refusedBefore + refused.Keys, s.round.notFound, c.dist));
  }

  lemma {:induction false} ShortestExists(refused: map<Peer, nat>, hiding: set<Peer>) returns (remaining: nat)
    ensures hiding != {} ==> IsShortest(refused, hiding, remaining)
  {
    remaining := 0;
    if hiding != {} {
      var p :| p in hiding;
      var rest := hiding - {p};
      var least := ShortestExists(refused, rest);
      assert forall q :: q in hiding ==> q == p || q in rest;
      if rest != {} && least < Remaining(refused, p) {
        remaining := least;
        var q :| q in rest && Remaining(refused, q) == least;
        assert q in hiding;
      } else {
        remaining := Remaining(refused, p);
        assert p in hiding;
      }
    }
  }
}
