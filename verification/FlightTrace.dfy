/** What callers did in a run of shared operations, taken from its labels alone:
    who called, what each operation returned, and who was dropped. */
module FlightTrace {
  import opened Prelude
  import opened SingleFlight

  datatype Seen = Seen(calls: map<Caller, Call>, returned: map<Caller, Value>, dropped: set<Caller>)

  function See(x: Seen, l: Label): Seen {
    match l
    case Start(c, call) => x.(calls := x.calls[c := call])
    case Returns(c, value) => x.(returned := x.returned[c := value])
    case DropLeader(c) => x.(dropped := x.dropped + {c})
    case DropWaiter(c) => x.(dropped := x.dropped + {c})
    case _ => x
  }

  function Watch(labels: seq<Label>): Seen {
    if labels == [] then Seen(map[], map[], {})
    else See(Watch(labels[..|labels| - 1]), labels[|labels| - 1])
  }

  predicate IsDropped(pc: Pc) {
    pc.Dropping? || pc.Gone?
  }

  /** The value a leader has from its operation, once that returned. */
  function LedValue(pc: Pc): Option<Value> {
    match pc
    case Returned(_, value) => Some(value)
    case Sending(_, value, _) => Some(value)
    case Finished(_, Led(value, _)) => Some(value)
    case _ => None
  }

  predicate CallerAgrees(s: State, x: Seen, c: Caller) {
    && (c in s.pcs <==> c in x.calls)
    && (c in x.dropped <==> c in s.pcs && IsDropped(s.pcs[c]))
    && (c in x.returned <==> c in s.pcs && LedValue(s.pcs[c]).Some?)
    && (c in x.returned ==> LedValue(s.pcs[c]) == Some(x.returned[c]))
  }

  ghost predicate Agrees(s: State, x: Seen) {
    s.calls == x.calls && forall c: Caller :: CallerAgrees(s, x, c)
  }

  lemma CallerStep(copy: Value -> Value, s: State, x: Seen, l: Label, c: Caller)
    requires Enabled(s, l) && CallerAgrees(s, x, c) && s.calls == x.calls
    ensures CallerAgrees(Apply(copy, s, l), See(x, l), c)
  {
  }

  lemma CallsStep(copy: Value -> Value, s: State, x: Seen, l: Label)
    requires Enabled(s, l) && s.calls == x.calls
    ensures Apply(copy, s, l).calls == See(x, l).calls
  {
  }

  lemma {:induction false} RunAgrees(copy: Value -> Value, labels: seq<Label>)
    requires After(copy, labels).Some?
    ensures Agrees(After(copy, labels).value, Watch(labels))
  {
    if labels != [] {
      hide Apply, Enabled, CallerAgrees, See;
      var last := |labels| - 1;
      RunAgrees(copy, labels[..last]);
      var s, x := After(copy, labels[..last]).value, Watch(labels[..last]);
      CallsStep(copy, s, x, labels[last]);
      forall c: Caller ensures CallerAgrees(After(copy, labels).value, Watch(labels), c) {
        CallerStep(copy, s, x, labels[last], c);
      }
    }
  }

  /** A caller ends without a result exactly if it was dropped; a leader's result is
      what its own operation returned, and a joined one a copy of a copy of what some
      operation for its key returned. */
  lemma ResultsAsReturned(copy: Value -> Value, labels: seq<Label>, c: Caller)
    requires After(copy, labels).Some? && c in Watch(labels).calls
    ensures var s, x := After(copy, labels).value, Watch(labels);
      && c in s.pcs
      && (s.pcs[c].Gone? ==> c in x.dropped)
      && (s.pcs[c].Finished? ==> c !in x.dropped)
      && (s.pcs[c].Finished? && s.pcs[c].flown.Led? ==>
            c in x.returned && s.pcs[c].flown.value == x.returned[c])
      && (s.pcs[c].Finished? && s.pcs[c].flown.Joined? ==>
            exists d :: d in x.returned && d in x.calls && x.calls[d].key == x.calls[c].key
              && s.pcs[c].flown.value == copy(copy(x.returned[d])))
  {
    RunAgrees(copy, labels);
    var s, x := After(copy, labels).value, Watch(labels);
    assert CallerAgrees(s, x, c);
    if s.pcs[c].Finished? && s.pcs[c].flown.Joined? {
      RunKeeps(copy, labels);
      var d := JoinedFrom(copy, s, c);
      assert CallerAgrees(s, x, d);
    }
  }

  lemma JoinedFrom(copy: Value -> Value, s: State, c: Caller) returns (d: Caller)
    requires Inv(copy, s) && c in s.pcs && s.pcs[c].Finished? && s.pcs[c].flown.Joined?
    ensures d in s.pcs && s.pcs[d].Finished? && s.pcs[d].flown.Led? && d in s.calls && c in s.calls
    ensures s.calls[d].key == s.calls[c].key && s.pcs[c].flown.value == copy(copy(s.pcs[d].flown.value))
  {
    assert CallerOk(copy, s, c);
    var ch := s.pcs[c].channel;
    assert ChannelOk(copy, s, ch);
    d := s.channels[ch].leader;
    assert CallerOk(copy, s, d);
  }
}
