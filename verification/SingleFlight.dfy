/** Concurrent callers for one key share a single operation
    (`client_engine/single_flight.rs`). Callers are processes; a step is one
    critical section of the table's lock, or a caller's work between two of
    them: in particular "remove the flight" and "send, or let the sender go" are
    separate steps, so a new flight for the key may start in between. */
module SingleFlight {
  import opened Prelude

  type Key = nat
  type Value = nat
  type Caller = nat
  /** A result channel, by creation order. */
  type Channel = nat

  datatype Flight = Flight(channel: Channel, observe: bool)

  type Flights = map<Key, Flight>

  // The two critical sections

  /** Join the flight for `key` if there is one, else insert `unused` for it. */
  function JoinOrLead(flights: Flights, key: Key, observe: bool, unused: Channel): Flights {
    if key in flights then flights[key := Flight(flights[key].channel, flights[key].observe || observe)]
    else flights[key := Flight(unused, observe)]
  }

  /** Remove the flight for `key`, and whether any caller asked to observe it. */
  function Remove(flights: Flights, key: Key): (Flights, bool) {
    (flights - {key}, key in flights && flights[key].observe)
  }

  /** The table the callers share. */
  class Table {
    var flights: Flights

    constructor ()
      ensures flights == map[]
    {
      flights := map[];
    }

    /** The channel to wait on, or `None` when the caller leads on `unused`. */
    method Enter(key: Key, observe: bool, unused: Channel) returns (wait: Option<Channel>)
      modifies this
      ensures flights == JoinOrLead(old(flights), key, observe, unused)
      ensures wait == if key in old(flights) then Some(old(flights)[key].channel) else None
    {
      if key in flights {
        var flight := flights[key];
        flights := flights[key := flight.(observe := flight.observe || observe)];
        wait := Some(flight.channel);
      } else {
        flights := flights[key := Flight(unused, observe)];
        wait := None;
      }
    }

    method RemoveFlight(key: Key) returns (observe: bool)
      modifies this
      ensures (flights, observe) == Remove(old(flights), key)
    {
      observe := key in flights && flights[key].observe;
      flights := flights - {key};
    }
  }

  // The protocol

  /** How a call ended. */
  datatype Flown = Led(value: Value, observe: bool) | Joined(value: Value)

  datatype Status = Open | Sent(value: Value) | Cancelled

  /** A channel's end state, and who led, who shared and who asked to observe the
      flight it was made for; only `status` is seen by the callers. */
  datatype ChannelState = ChannelState(
    key: Key, leader: Caller, status: Status, sharers: set<Caller>, observers: set<Caller>)

  datatype Call = Call(key: Key, observe: bool)

  datatype Pc =
    | Entering
    | Awaiting(channel: Channel)
    | Running(channel: Channel)
    | Returned(channel: Channel, value: Value)
    | Sending(channel: Channel, value: Value, observe: bool)
    | Dropping(channel: Channel)
    /** `channel` is the flight it came through; nothing reads it. */
    | Finished(channel: Channel, flown: Flown)
    | Gone

  datatype State = State(
    flights: Flights,
    channels: seq<ChannelState>,
    calls: map<Caller, Call>,
    pcs: map<Caller, Pc>)

  function Init(): State {
    State(map[], [], map[], map[])
  }

  datatype Label =
    | Start(caller: Caller, call: Call)
    | Enter(caller: Caller)
    | Returns(caller: Caller, value: Value)
    | RemoveOwn(caller: Caller)
    | Send(caller: Caller)
    | DropLeader(caller: Caller)
    | SenderGoes(caller: Caller)
    | Wake(caller: Caller)
    | DropWaiter(caller: Caller)

  predicate At(s: State, c: Caller) {
    c in s.pcs && c in s.calls
  }

  predicate Enabled(s: State, l: Label) {
    match l
    case Start(c, _) => c !in s.pcs && c !in s.calls
    case Enter(c) => At(s, c) && s.pcs[c].Entering?
    case Returns(c, _) => At(s, c) && s.pcs[c].Running?
    case RemoveOwn(c) => At(s, c) && s.pcs[c].Returned?
    case Send(c) => At(s, c) && s.pcs[c].Sending? && s.pcs[c].channel < |s.channels|
    case DropLeader(c) => At(s, c) && s.pcs[c].Running?
    case SenderGoes(c) => At(s, c) && s.pcs[c].Dropping? && s.pcs[c].channel < |s.channels|
    case Wake(c) =>
      && At(s, c) && s.pcs[c].Awaiting?
      && s.pcs[c].channel < |s.channels| && !s.channels[s.pcs[c].channel].status.Open?
    case DropWaiter(c) => At(s, c) && (s.pcs[c].Awaiting? || s.pcs[c].Entering?)
  }

  function SetPc(s: State, c: Caller, pc: Pc): State {
    s.(pcs := s.pcs[c := pc])
  }

  function Asking(c: Caller, observe: bool): set<Caller> {
    if observe then {c} else {}
  }

  function Share(s: State, ch: Channel, c: Caller, observe: bool): seq<ChannelState>
    requires ch < |s.channels|
  {
    var x := s.channels[ch];
    s.channels[ch := x.(sharers := x.sharers + {c}, observers := x.observers + Asking(c, observe))]
  }

  function Resolve(s: State, ch: Channel, status: Status): seq<ChannelState>
    requires ch < |s.channels|
  {
    s.channels[ch := s.channels[ch].(status := status)]
  }

  function ApplyEnter(s: State, c: Caller): State
    requires At(s, c)
  {
    var call := s.calls[c];
    var unused := |s.channels|;
    var t := s.(flights := JoinOrLead(s.flights, call.key, call.observe, unused));
    if call.key in s.flights then
      var ch := s.flights[call.key].channel;
      SetPc(t.(channels := if ch < |s.channels| then Share(s, ch, c, call.observe) else s.channels), c, Awaiting(ch))
    else
      SetPc(t.(channels := s.channels + [ChannelState(call.key, c, Open, {c}, Asking(c, call.observe))]), c,
            Running(unused))
  }

  function Apply(copy: Value -> Value, s: State, l: Label): State
    requires Enabled(s, l)
  {
    match l
    case Start(c, call) => s.(calls := s.calls[c := call], pcs := s.pcs[c := Entering])
    case Enter(c) => ApplyEnter(s, c)
    case Returns(c, value) => SetPc(s, c, Returned(s.pcs[c].channel, value))
    case RemoveOwn(c) =>
      var (flights, observe) := Remove(s.flights, s.calls[c].key);
      SetPc(s.(flights := flights), c, Sending(s.pcs[c].channel, s.pcs[c].value, observe))
    case Send(c) =>
      SetPc(s.(channels := Resolve(s, s.pcs[c].channel, Sent(copy(s.pcs[c].value)))), c,
            Finished(s.pcs[c].channel, Led(s.pcs[c].value, s.pcs[c].observe)))
    case DropLeader(c) =>
      SetPc(s.(flights := Remove(s.flights, s.calls[c].key).0), c, Dropping(s.pcs[c].channel))
    case SenderGoes(c) =>
      SetPc(s.(channels := Resolve(s, s.pcs[c].channel, Cancelled)), c, Gone)
    case Wake(c) =>
      (match s.channels[s.pcs[c].channel].status
       case Sent(value) => SetPc(s, c, Finished(s.pcs[c].channel, Joined(copy(value))))
       case _ => SetPc(s, c, Entering))
    case DropWaiter(c) => SetPc(s, c, Gone)
  }

  function After(copy: Value -> Value, labels: seq<Label>): Option<State> {
    if labels == [] then Some(Init())
    else
      var last := |labels| - 1;
      match After(copy, labels[..last])
      case None => None
      case Some(s) => if Enabled(s, labels[last]) then Some(Apply(copy, s, labels[last])) else None
  }

  ghost predicate Reachable(copy: Value -> Value, s: State) {
    exists labels :: After(copy, labels) == Some(s)
  }

  // What every step keeps

  /** `c` runs the operation of the flight on `ch`, or has just run it. */
  predicate Leads(s: State, c: Caller, ch: Channel) {
    c in s.pcs && (s.pcs[c].Running? || s.pcs[c].Returned?) && s.pcs[c].channel == ch
  }

  /** `c` can still resolve `ch`. */
  predicate HoldsSender(s: State, c: Caller, ch: Channel) {
    Leads(s, c, ch) || (c in s.pcs && (s.pcs[c].Sending? || s.pcs[c].Dropping?) && s.pcs[c].channel == ch)
  }

  /** A flight in the table has a live leader, its channel is open, and its
      flag is the OR over its sharers. */
  ghost predicate FlightOk(s: State, k: Key) {
    k in s.flights ==>
      var f := s.flights[k];
      && f.channel < |s.channels|
      && s.channels[f.channel].key == k
      && Leads(s, s.channels[f.channel].leader, f.channel)
      && (f.observe <==> s.channels[f.channel].observers != {})
  }

  /** `c` made `ch`, for its own key, and nobody has resolved it. */
  predicate OwnsOpen(s: State, c: Caller, ch: Channel) {
    && ch < |s.channels| && c in s.calls
    && s.channels[ch].leader == c && s.channels[ch].status.Open? && s.channels[ch].key == s.calls[c].key
  }

  /** The flight in the table for `c`'s key is the one on `ch`. */
  predicate InTable(s: State, c: Caller, ch: Channel) {
    c in s.calls && s.calls[c].key in s.flights && s.flights[s.calls[c].key].channel == ch
  }

  /** A caller that may still resolve a channel made it, and while it leads its
      flight is the one in the table. */
  ghost predicate CallerOk(copy: Value -> Value, s: State, c: Caller) {
    c in s.pcs ==>
      match s.pcs[c]
      case Running(ch) => OwnsOpen(s, c, ch) && InTable(s, c, ch)
      case Returned(ch, _) => OwnsOpen(s, c, ch) && InTable(s, c, ch)
      case Sending(ch, _, observe) => OwnsOpen(s, c, ch) && (observe <==> s.channels[ch].observers != {})
      case Dropping(ch) => OwnsOpen(s, c, ch)
      case Awaiting(ch) => Shares(s, c, ch)
      case Finished(ch, Led(_, observe)) =>
        ch < |s.channels| && s.channels[ch].leader == c && (observe <==> s.channels[ch].observers != {})
      case Finished(ch, Joined(value)) =>
        Shares(s, c, ch) && s.channels[ch].status.Sent? && value == copy(s.channels[ch].status.value)
      case _ => true
  }

  predicate Shares(s: State, c: Caller, ch: Channel) {
    && ch < |s.channels| && c in s.calls
    && c in s.channels[ch].sharers && s.channels[ch].key == s.calls[c].key
  }

  /** An open channel has its leader to resolve it; a sent one carries a copy of
      what its leader returned. */
  ghost predicate ChannelOk(copy: Value -> Value, s: State, ch: Channel) {
    ch < |s.channels| ==>
      var x := s.channels[ch];
      && x.leader in s.pcs
      && x.leader in x.sharers
      && x.observers <= x.sharers
      && (forall c :: c in x.sharers ==>
            c in s.calls && s.calls[c].key == x.key && (s.calls[c].observe <==> c in x.observers))
      && match x.status
         case Open => HoldsSender(s, x.leader, ch)
         case Sent(value) =>
           && s.pcs[x.leader].Finished? && s.pcs[x.leader].channel == ch
           && s.pcs[x.leader].flown.Led? && value == copy(s.pcs[x.leader].flown.value)
         case Cancelled => s.pcs[x.leader].Gone?
  }

  ghost predicate Inv(copy: Value -> Value, s: State) {
    && (forall k: Key :: FlightOk(s, k))
    && (forall c: Caller :: CallerOk(copy, s, c))
    && (forall ch: Channel :: ChannelOk(copy, s, ch))
    && s.pcs.Keys == s.calls.Keys
  }

  lemma StartKeeps(copy: Value -> Value, s: State, c: Caller, call: Call)
    requires Inv(copy, s) && Enabled(s, Start(c, call))
    ensures Inv(copy, Apply(copy, s, Start(c, call)))
  {
    var t := Apply(copy, s, Start(c, call));
    forall k: Key ensures FlightOk(t, k) { assert FlightOk(s, k); }
    forall d: Caller ensures CallerOk(copy, t, d) { assert CallerOk(copy, s, d); }
    forall ch: Channel ensures ChannelOk(copy, t, ch) { assert ChannelOk(copy, s, ch); }
  }

  lemma ReturnsKeeps(copy: Value -> Value, s: State, c: Caller, value: Value)
    requires Inv(copy, s) && Enabled(s, Returns(c, value))
    ensures Inv(copy, Apply(copy, s, Returns(c, value)))
  {
    var t := Apply(copy, s, Returns(c, value));
    forall k: Key ensures FlightOk(t, k) { assert FlightOk(s, k); }
    forall d: Caller ensures CallerOk(copy, t, d) { assert CallerOk(copy, s, d); }
    forall ch: Channel ensures ChannelOk(copy, t, ch) { assert ChannelOk(copy, s, ch); }
  }

  lemma WakeKeeps(copy: Value -> Value, s: State, c: Caller)
    requires Inv(copy, s) && Enabled(s, Wake(c))
    ensures Inv(copy, Apply(copy, s, Wake(c)))
  {
    var t := Apply(copy, s, Wake(c));
    forall k: Key ensures FlightOk(t, k) { assert FlightOk(s, k); }
    forall d: Caller ensures CallerOk(copy, t, d) { assert CallerOk(copy, s, d); }
    forall ch: Channel ensures ChannelOk(copy, t, ch) { assert ChannelOk(copy, s, ch); }
  }

  lemma DropWaiterKeeps(copy: Value -> Value, s: State, c: Caller)
    requires Inv(copy, s) && Enabled(s, DropWaiter(c))
    ensures Inv(copy, Apply(copy, s, DropWaiter(c)))
  {
    var t := Apply(copy, s, DropWaiter(c));
    forall k: Key ensures FlightOk(t, k) { assert FlightOk(s, k); }
    forall d: Caller ensures CallerOk(copy, t, d) { assert CallerOk(copy, s, d); }
    forall ch: Channel ensures ChannelOk(copy, t, ch) { assert ChannelOk(copy, s, ch); }
  }

  /** The flight a leader removes is its own, and only that one goes. */
  lemma RemovesOwnFlight(copy: Value -> Value, s: State, c: Caller, ch: Channel)
    requires Inv(copy, s) && Leads(s, c, ch)
    ensures c in s.calls && s.calls[c].key in s.flights && s.flights[s.calls[c].key].channel == ch
    ensures ch < |s.channels| && (s.flights[s.calls[c].key].observe <==> s.channels[ch].observers != {})
    ensures forall k: Key :: k in s.flights && k != s.calls[c].key ==> s.flights[k].channel != ch
  {
    assert CallerOk(copy, s, c);
    assert FlightOk(s, s.calls[c].key);
    forall k: Key | k in s.flights && k != s.calls[c].key
      ensures s.flights[k].channel != ch
    {
      assert FlightOk(s, k);
    }
  }

  lemma RemoveOwnKeeps(copy: Value -> Value, s: State, c: Caller)
    requires Inv(copy, s) && Enabled(s, RemoveOwn(c))
    ensures Inv(copy, Apply(copy, s, RemoveOwn(c)))
  {
    var t := Apply(copy, s, RemoveOwn(c));
    RemovesOwnFlight(copy, s, c, s.pcs[c].channel);
    OthersKeepFlights(copy, s, c, s.pcs[c].channel);
    forall k: Key ensures FlightOk(t, k) { assert FlightOk(s, k); }
    forall d: Caller ensures CallerOk(copy, t, d) { assert CallerOk(copy, s, d); }
    forall ch: Channel ensures ChannelOk(copy, t, ch) { assert ChannelOk(copy, s, ch); }
  }

  lemma DropLeaderKeeps(copy: Value -> Value, s: State, c: Caller)
    requires Inv(copy, s) && Enabled(s, DropLeader(c))
    ensures Inv(copy, Apply(copy, s, DropLeader(c)))
  {
    var t := Apply(copy, s, DropLeader(c));
    RemovesOwnFlight(copy, s, c, s.pcs[c].channel);
    OthersKeepFlights(copy, s, c, s.pcs[c].channel);
    forall k: Key ensures FlightOk(t, k) { assert FlightOk(s, k); }
    forall d: Caller ensures CallerOk(copy, t, d) { assert CallerOk(copy, s, d); }
    forall ch: Channel ensures ChannelOk(copy, t, ch) { assert ChannelOk(copy, s, ch); }
  }

  /** Two leaders never share a key. */
  lemma OneLeaderPerKey(copy: Value -> Value, s: State, c: Caller, ch: Channel, d: Caller, dh: Channel)
    requires Inv(copy, s) && Leads(s, c, ch) && Leads(s, d, dh) && s.calls[c].key == s.calls[d].key
    ensures c == d && ch == dh
  {
    assert CallerOk(copy, s, c);
    assert CallerOk(copy, s, d);
  }

  lemma OthersKeepFlights(copy: Value -> Value, s: State, c: Caller, ch: Channel)
    requires Inv(copy, s) && Leads(s, c, ch)
    ensures forall d :: d in s.pcs && d != c && (s.pcs[d].Running? || s.pcs[d].Returned?) ==>
              s.calls[d].key != s.calls[c].key
  {
    forall d | d in s.pcs && d != c && (s.pcs[d].Running? || s.pcs[d].Returned?)
      ensures s.calls[d].key != s.calls[c].key
    {
      if s.calls[d].key == s.calls[c].key { OneLeaderPerKey(copy, s, c, ch, d, s.pcs[d].channel); }
    }
  }

  lemma ResolveKeeps(copy: Value -> Value, s: State, c: Caller, l: Label)
    requires Inv(copy, s) && Enabled(s, l) && (l == Send(c) || l == SenderGoes(c))
    ensures Inv(copy, Apply(copy, s, l))
  {
    var t := Apply(copy, s, l);
    assert CallerOk(copy, s, c);
    forall k: Key ensures FlightOk(t, k) { assert FlightOk(s, k); }
    forall d: Caller ensures CallerOk(copy, t, d) { assert CallerOk(copy, s, d); }
    forall ch: Channel ensures ChannelOk(copy, t, ch) { assert ChannelOk(copy, s, ch); }
  }

  lemma JoinKeeps(copy: Value -> Value, s: State, c: Caller)
    requires Inv(copy, s) && Enabled(s, Enter(c)) && s.calls[c].key in s.flights
    ensures Inv(copy, ApplyEnter(s, c))
  {
    var t := ApplyEnter(s, c);
    assert FlightOk(s, s.calls[c].key);
    forall k: Key ensures FlightOk(t, k) { assert FlightOk(s, k); }
    forall d: Caller ensures CallerOk(copy, t, d) { assert CallerOk(copy, s, d); }
    forall ch: Channel ensures ChannelOk(copy, t, ch) { assert ChannelOk(copy, s, ch); }
  }

  lemma LeadKeeps(copy: Value -> Value, s: State, c: Caller)
    requires Inv(copy, s) && Enabled(s, Enter(c)) && s.calls[c].key !in s.flights
    ensures Inv(copy, ApplyEnter(s, c))
  {
    var t := ApplyEnter(s, c);
    forall k: Key ensures FlightOk(t, k) { assert FlightOk(s, k); }
    forall d: Caller ensures CallerOk(copy, t, d) { assert CallerOk(copy, s, d); }
    forall ch: Channel ensures ChannelOk(copy, t, ch) { assert ChannelOk(copy, s, ch); }
  }

  lemma StepKeeps(copy: Value -> Value, s: State, l: Label)
    requires Inv(copy, s) && Enabled(s, l)
    ensures Inv(copy, Apply(copy, s, l))
  {
    hide FlightOk, CallerOk, ChannelOk;
    match l
    case Start(c, call) => StartKeeps(copy, s, c, call);
    case Enter(c) => if s.calls[c].key in s.flights { JoinKeeps(copy, s, c); } else { LeadKeeps(copy, s, c); }
    case Returns(c, value) => ReturnsKeeps(copy, s, c, value);
    case RemoveOwn(c) => RemoveOwnKeeps(copy, s, c);
    case Send(c) => ResolveKeeps(copy, s, c, l);
    case DropLeader(c) => DropLeaderKeeps(copy, s, c);
    case SenderGoes(c) => ResolveKeeps(copy, s, c, l);
    case Wake(c) => WakeKeeps(copy, s, c);
    case DropWaiter(c) => DropWaiterKeeps(copy, s, c);
  }

  lemma {:induction false} RunKeeps(copy: Value -> Value, labels: seq<Label>)
    requires After(copy, labels).Some?
    ensures Inv(copy, After(copy, labels).value)
  {
    if labels != [] {
      var last := |labels| - 1;
      RunKeeps(copy, labels[..last]);
      StepKeeps(copy, After(copy, labels[..last]).value, labels[last]);
    }
  }

  lemma ReachableInv(copy: Value -> Value, s: State)
    requires Reachable(copy, s)
    ensures Inv(copy, s)
  {
    var labels :| After(copy, labels) == Some(s);
    RunKeeps(copy, labels);
  }

  // Whole runs

  /** At most one caller runs the operation of a key, or is about to remove its
      flight, at a time. */
  lemma OneOperationPerKey(copy: Value -> Value, s: State, c: Caller, ch: Channel, d: Caller, dh: Channel)
    requires Reachable(copy, s) && Leads(s, c, ch) && Leads(s, d, dh)
    requires c in s.calls && d in s.calls && s.calls[c].key == s.calls[d].key
    ensures c == d
  {
    ReachableInv(copy, s);
    OneLeaderPerKey(copy, s, c, ch, d, dh);
  }

  /** A key is in the table exactly while it has a live leader. */
  lemma InTableIffLed(copy: Value -> Value, s: State, k: Key)
    requires Reachable(copy, s)
    ensures k in s.flights <==> exists c, ch: Channel :: Leads(s, c, ch) && c in s.calls && s.calls[c].key == k
  {
    ReachableInv(copy, s);
    assert FlightOk(s, k);
    if k in s.flights {
      var ch := s.flights[k].channel;
      var c := s.channels[ch].leader;
      assert CallerOk(copy, s, c);
      assert Leads(s, c, ch) && s.calls[c].key == k;
    }
    forall c, ch: Channel | Leads(s, c, ch) && c in s.calls && s.calls[c].key == k
      ensures k in s.flights
    {
      assert CallerOk(copy, s, c);
    }
  }

  /** Finishing or dropped, a leader removes its own flight and no other, even
      if flights for its key came and went before. */
  lemma RemovalIsOwn(copy: Value -> Value, s: State, l: Label, c: Caller)
    requires Reachable(copy, s) && Enabled(s, l) && (l == RemoveOwn(c) || l == DropLeader(c))
    ensures s.calls[c].key in s.flights && s.flights[s.calls[c].key].channel == s.pcs[c].channel
    ensures Apply(copy, s, l).flights == s.flights - {s.calls[c].key}
  {
    ReachableInv(copy, s);
    RemovesOwnFlight(copy, s, c, s.pcs[c].channel);
  }

  /** A leader on its way out never touches the table again, so a new flight for
      its key survives the send. */
  lemma SendLeavesTable(copy: Value -> Value, s: State, l: Label, c: Caller)
    requires Reachable(copy, s) && Enabled(s, l) && (l == Send(c) || l == SenderGoes(c))
    ensures Apply(copy, s, l).flights == s.flights
    ensures forall k: Key :: k in s.flights ==> s.flights[k].channel != s.pcs[c].channel
  {
    ReachableInv(copy, s);
    assert CallerOk(copy, s, c);
    forall k: Key | k in s.flights
      ensures s.flights[k].channel != s.pcs[c].channel
    {
      assert FlightOk(s, k);
    }
  }

  /** A waiting caller can wake, to a result or to enter again, or its leader has a
      step to take that leads to resolving its channel. */
  lemma NoWaiterStranded(copy: Value -> Value, s: State, c: Caller)
    requires Reachable(copy, s) && c in s.pcs && s.pcs[c].Awaiting?
    ensures (Enabled(s, Wake(c)) && var pc := Apply(copy, s, Wake(c)).pcs[c]; pc.Finished? || pc.Entering?)
            || exists d, value :: HoldsSender(s, d, s.pcs[c].channel)
                 && (Enabled(s, Returns(d, value)) || Enabled(s, RemoveOwn(d)) || Enabled(s, Send(d))
                     || Enabled(s, SenderGoes(d)))
  {
    ReachableInv(copy, s);
    assert CallerOk(copy, s, c);
    var ch := s.pcs[c].channel;
    assert ChannelOk(copy, s, ch);
    if s.channels[ch].status.Open? {
      var d := s.channels[ch].leader;
      assert CallerOk(copy, s, d);
      assert HoldsSender(s, d, ch);
      assert Enabled(s, Returns(d, 0)) || Enabled(s, RemoveOwn(d)) || Enabled(s, Send(d)) || Enabled(s, SenderGoes(d));
    }
  }

  /** What a joined caller got is a copy of what its flight's leader returned,
      and if it asked to observe, the leader was told. */
  lemma JoinedIsCopy(copy: Value -> Value, s: State, c: Caller)
    requires Reachable(copy, s) && c in s.pcs && s.pcs[c].Finished? && s.pcs[c].flown.Joined?
    ensures exists d :: d in s.pcs && s.pcs[d].Finished? && s.pcs[d].flown.Led? && s.pcs[d].channel == s.pcs[c].channel
                        && s.pcs[c].flown.value == copy(copy(s.pcs[d].flown.value))
                        && (c in s.calls && s.calls[c].observe ==> s.pcs[d].flown.observe)
  {
    ReachableInv(copy, s);
    assert CallerOk(copy, s, c);
    var ch := s.pcs[c].channel;
    assert ChannelOk(copy, s, ch);
    var d := s.channels[ch].leader;
    assert CallerOk(copy, s, d);
  }

  /** A leader's flag is the OR over every caller that shared its flight. */
  lemma ObserveIsOr(copy: Value -> Value, s: State, d: Caller)
    requires Reachable(copy, s) && d in s.pcs && s.pcs[d].Finished? && s.pcs[d].flown.Led?
    ensures s.pcs[d].channel < |s.channels|
    ensures s.pcs[d].flown.observe <==>
              exists c :: c in s.channels[s.pcs[d].channel].sharers && c in s.calls && s.calls[c].observe
  {
    ReachableInv(copy, s);
    assert CallerOk(copy, s, d);
    var x := s.channels[s.pcs[d].channel];
    assert ChannelOk(copy, s, s.pcs[d].channel);
    if x.observers != {} {
      var c :| c in x.observers;
      assert c in x.sharers;
    }
  }

  /** Once every caller has finished or gone, nothing is in flight. */
  lemma NothingLeftInFlight(copy: Value -> Value, s: State)
    requires Reachable(copy, s) && forall c :: c in s.pcs ==> s.pcs[c].Finished? || s.pcs[c].Gone?
    ensures s.flights == map[]
  {
    ReachableInv(copy, s);
    forall k: Key
      ensures k !in s.flights
    {
      assert FlightOk(s, k);
    }
  }
}
