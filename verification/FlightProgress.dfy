/** Why callers that share operations do not retry for ever: every step but the
    start of a new call leaves less to do. */
module FlightProgress {
  import opened Prelude
  import opened Sorting
  import opened Sums
  import opened SingleFlight
  import opened FlightTrace

  /** Callers that have neither a result nor been dropped. */
  function Live(s: State): set<Caller> {
    set c | c in s.pcs && !s.pcs[c].Finished? && !s.pcs[c].Gone?
  }

  /** The flight `c` waits for was cancelled, so `c` will enter again. */
  predicate Retries(s: State, ch: Channel) {
    ch < |s.channels| && s.channels[ch].status.Cancelled?
  }

  /** The steps a caller has before it at most, as long as no other goes. */
  function Weight(s: State, c: Caller): nat {
    if c !in s.pcs then 0
    else
      match s.pcs[c]
      case Entering => 5
      case Running(_) => 4
      case Returned(_, _) => 3
      case Sending(_, _, _) => 2
      case Dropping(_) => 2
      case Awaiting(ch) => if Retries(s, ch) then 6 else 1
      case _ => 0
  }

  function Weights(s: State): Caller -> nat {
    c => Weight(s, c)
  }

  /** A caller that goes may send every other one back to enter again, which is
      paid for by there being one caller less. */
  ghost function Work(s: State): nat {
    6 * |Live(s)| * |Live(s)| + SumOver(Live(s), Weights(s))
  }

  lemma Square(n: nat)
    ensures 6 * (n + 1) * (n + 1) == 6 * n * n + 12 * n + 6
  {
  }

  lemma WorkBound(s: State)
    ensures Work(s) <= 6 * |Live(s)| * |Live(s)| + 6 * |Live(s)|
  {
    SumBound(Live(s), Weights(s), 6);
  }

  /** `c` moves on and no other caller has more before it. */
  lemma MovedOn(s: State, t: State, c: Caller)
    requires Live(t) == Live(s) && c in Live(s) && Weight(t, c) < Weight(s, c)
    requires forall d :: d in Live(s) ==> Weight(t, d) <= Weight(s, d)
    ensures Work(t) < Work(s)
  {
    hide Weight, Live;
    assert Weights(t)(c) < Weights(s)(c);
    SumShrinks(Live(s), Weights(s), Weights(t));
  }

  /** `c` goes, whatever that means for the others. */
  lemma Goes(s: State, t: State, c: Caller)
    requires c in Live(s) && Live(t) == Live(s) - {c}
    ensures Work(t) < Work(s)
  {
    hide Weight, Live;
    WorkBound(t);
    assert |Live(s)| == |Live(t)| + 1;
    Square(|Live(t)|);
  }

  // One step at a time

  /** A flight that can be joined is not cancelled. */
  lemma JoinableOpen(copy: Value -> Value, s: State, k: Key)
    requires Inv(copy, s) && k in s.flights
    ensures !Retries(s, s.flights[k].channel)
  {
    assert FlightOk(s, k);
    assert CallerOk(copy, s, s.channels[s.flights[k].channel].leader);
  }

  lemma EnterWork(copy: Value -> Value, s: State, c: Caller)
    requires Inv(copy, s) && Enabled(s, Enter(c))
    ensures Work(ApplyEnter(s, c)) < Work(s)
  {
    hide Inv, Work;
    if s.calls[c].key in s.flights { JoinableOpen(copy, s, s.calls[c].key); }
    MovedOn(s, ApplyEnter(s, c), c);
  }

  lemma WakeWork(copy: Value -> Value, s: State, c: Caller)
    requires Enabled(s, Wake(c))
    ensures Work(Apply(copy, s, Wake(c))) < Work(s)
  {
    hide Work;
    var t := Apply(copy, s, Wake(c));
    if s.channels[s.pcs[c].channel].status.Sent? { Goes(s, t, c); } else { MovedOn(s, t, c); }
  }

  /** Every step but the start of a call leaves less work. */
  lemma StepWork(copy: Value -> Value, s: State, l: Label)
    requires Inv(copy, s) && Enabled(s, l) && !l.Start?
    ensures Work(Apply(copy, s, l)) < Work(s)
  {
    hide Inv, Work;
    match l
    case Enter(c) => EnterWork(copy, s, c);
    case Wake(c) => WakeWork(copy, s, c);
    case Send(c) => Goes(s, Apply(copy, s, l), c);
    case SenderGoes(c) => Goes(s, Apply(copy, s, l), c);
    case DropWaiter(c) => Goes(s, Apply(copy, s, l), c);
    case Returns(c, _) => MovedOn(s, Apply(copy, s, l), c);
    case RemoveOwn(c) => MovedOn(s, Apply(copy, s, l), c);
    case DropLeader(c) => MovedOn(s, Apply(copy, s, l), c);
  }

  lemma StartLoad(s: State, t: State, c: Caller)
    requires c !in Live(s) && Live(t) == Live(s) + {c} && Weight(t, c) == 5
    requires forall d :: d in Live(s) ==> Weight(t, d) == Weight(s, d)
    ensures SumOver(Live(t), Weights(t)) == SumOver(Live(s), Weights(s)) + 5
  {
    hide Live, Weight;
    assert Live(t) - {c} == Live(s);
    SumSplit(Live(t), Weights(t), c);
    SumShrinks(Live(s), Weights(s), Weights(t));
    SumShrinks(Live(s), Weights(t), Weights(s));
  }

  lemma Comes(s: State, t: State, c: Caller)
    requires c !in Live(s) && Live(t) == Live(s) + {c} && Weight(t, c) == 5
    requires forall d :: d in Live(s) ==> Weight(t, d) == Weight(s, d)
    ensures Work(t) == Work(s) + 12 * |Live(s)| + 11
  {
    hide Live, Weight;
    StartLoad(s, t, c);
    assert |Live(t)| == |Live(s)| + 1;
    Square(|Live(s)|);
  }

  lemma StartWork(copy: Value -> Value, s: State, c: Caller, call: Call)
    requires Enabled(s, Start(c, call))
    ensures Work(Apply(copy, s, Start(c, call))) == Work(s) + 12 * |Live(s)| + 11
  {
    hide Work;
    Comes(s, Apply(copy, s, Start(c, call)), c);
  }

  // Whole runs

  /** What `n` callers can do at most. */
  function Most(n: nat): nat {
    6 * n * (n + 1)
  }

  lemma MostGrows(n: nat)
    ensures Most(n + 1) == Most(n) + 12 * n + 12
  {
  }

  lemma LiveBound(s: State)
    ensures |Live(s)| <= |s.pcs|
  {
    SubsetCardinality(Live(s), s.pcs.Keys);
  }

  lemma NothingYet()
    ensures Work(Init()) == 0
  {
    assert Live(Init()) == {};
  }

  /** A started call may add as much as one more caller allows, another step
      nothing. */
  lemma StepBound(copy: Value -> Value, s: State, l: Label)
    requires Inv(copy, s) && Enabled(s, l)
    ensures var t := Apply(copy, s, l); Work(t) + 1 + Most(|s.pcs|) <= Work(s) + Most(|t.pcs|)
  {
    hide Inv, Work, Live, Most;
    if l.Start? {
      StartWork(copy, s, l.caller, l.call);
      LiveBound(s);
      assert |Apply(copy, s, l).pcs| == |s.pcs| + 1;
      MostGrows(|s.pcs|);
    } else {
      StepWork(copy, s, l);
      assert Apply(copy, s, l).pcs.Keys == s.pcs.Keys;
    }
  }

  /** A run is no longer than its callers allow, whatever is dropped and however
      often the rest enter again. */
  lemma {:induction false} RunBound(copy: Value -> Value, labels: seq<Label>)
    requires After(copy, labels).Some?
    ensures var s := After(copy, labels).value; |labels| + Work(s) <= Most(|s.pcs|)
  {
    hide Work, Live, Apply, Enabled, Inv;
    if labels == [] {
      NothingYet();
    } else {
      var last := |labels| - 1;
      var s := After(copy, labels[..last]).value;
      RunBound(copy, labels[..last]);
      RunKeeps(copy, labels[..last]);
      StepBound(copy, s, labels[last]);
    }
  }

  /** Neither a new call nor a caller dropped. */
  predicate Moves(l: Label) {
    !l.Start? && !l.DropLeader? && !l.DropWaiter?
  }

  /** What the holder of a sender does next. */
  function HolderMove(s: State, c: Caller): Label
    requires c in s.pcs
  {
    match s.pcs[c]
    case Returned(_, _) => RemoveOwn(c)
    case Sending(_, _, _) => Send(c)
    case Dropping(_) => SenderGoes(c)
    case _ => Returns(c, 0)
  }

  /** As long as a caller is live some caller can move, and none need be dropped
      for it. */
  lemma CanMove(copy: Value -> Value, s: State, c: Caller) returns (l: Label)
    requires Inv(copy, s) && c in Live(s)
    ensures Moves(l) && Enabled(s, l)
  {
    assert CallerOk(copy, s, c);
    if s.pcs[c].Entering? {
      l := Enter(c);
    } else if s.pcs[c].Awaiting? {
      var ch := s.pcs[c].channel;
      var leader := s.channels[ch].leader;
      assert ChannelOk(copy, s, ch) && CallerOk(copy, s, leader);
      l := if s.channels[ch].status.Open? then HolderMove(s, leader) else Wake(c);
    } else {
      l := HolderMove(s, c);
    }
  }

  lemma OneMore(copy: Value -> Value, labels: seq<Label>, l: Label)
    requires After(copy, labels).Some? && Enabled(After(copy, labels).value, l)
    ensures After(copy, labels + [l]) == Some(Apply(copy, After(copy, labels).value, l))
  {
    hide Apply, Enabled;
    assert (labels + [l])[..|labels|] == labels;
  }

  lemma MoveDropsNobody(x: Seen, l: Label)
    requires Moves(l)
    ensures See(x, l).dropped == x.dropped && See(x, l).calls == x.calls
  {
  }

  lemma WatchMore(labels: seq<Label>, l: Label)
    ensures Watch(labels + [l]) == See(Watch(labels), l)
  {
    hide See;
    assert (labels + [l])[..|labels|] == labels;
  }

  /** Every run can be brought to an end in which nothing is in flight and every
      call has its result, but for those dropped before; no further call need be
      dropped. */
  lemma {:induction false} Completes(copy: Value -> Value, labels: seq<Label>) returns (more: seq<Label>)
    requires After(copy, labels).Some?
    ensures |more| <= Work(After(copy, labels).value) && forall i :: 0 <= i < |more| ==> Moves(more[i])
    ensures var end := After(copy, labels + more);
      && end.Some? && end.value.flights == map[]
      && forall c :: c in Watch(labels).calls && c !in Watch(labels).dropped ==>
           c in end.value.pcs && end.value.pcs[c].Finished?
    decreases Work(After(copy, labels).value)
  {
    hide Work, Apply, Enabled, Inv, After, Live, Watch, See, Moves;
    var s := After(copy, labels).value;
    RunKeeps(copy, labels);
    if Live(s) == {} {
      more := [];
      assert labels + more == labels;
      Landed(copy, labels);
    } else {
      var c :| c in Live(s);
      var l := CanMove(copy, s, c);
      OneMore(copy, labels, l);
      WatchMore(labels, l);
      MoveDropsNobody(Watch(labels), l);
      assert !l.Start? by { MovesNotStart(l); }
      StepWork(copy, s, l);
      var rest := Completes(copy, labels + [l]);
      more := [l] + rest;
      assert labels + more == labels + [l] + rest;
    }
  }

  lemma MovesNotStart(l: Label)
    requires Moves(l)
    ensures !l.Start?
  {
  }

  lemma Landed(copy: Value -> Value, labels: seq<Label>)
    requires After(copy, labels).Some? && Live(After(copy, labels).value) == {}
    ensures After(copy, labels).value.flights == map[]
    ensures forall c :: c in Watch(labels).calls && c !in Watch(labels).dropped ==>
              c in After(copy, labels).value.pcs && After(copy, labels).value.pcs[c].Finished?
  {
    var s := After(copy, labels).value;
    forall c | c in s.pcs ensures s.pcs[c].Finished? || s.pcs[c].Gone? {
      assert c !in Live(s);
    }
    NothingLeftInFlight(copy, s);
    RunAgrees(copy, labels);
    forall c | c in Watch(labels).calls && c !in Watch(labels).dropped
      ensures c in s.pcs && s.pcs[c].Finished?
    {
      assert CallerAgrees(s, Watch(labels), c);
    }
  }
}
