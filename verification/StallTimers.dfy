/** The stall timers of the early GETs in flight as the source keeps them: a
    list of peers, each with a timer that is cleared once it fires. Its methods
    refine the per-peer timers the read protocol reasons with. */
module StallTimers {
  import opened Prelude
  import opened ReadOrder
  import opened ProgressiveRead

  /** `running` is the timer; `None` once it fired. */
  datatype Entry = Entry(peer: Peer, running: Option<Timer>)

  function TimerOf(e: Entry): Timer {
    if e.running.Some? then e.running.value else Fired
  }

  function Lookup(list: seq<Entry>, p: Peer): Option<Timer> {
    if list == [] then None
    else if list[0].peer == p then Some(TimerOf(list[0]))
    else Lookup(list[1..], p)
  }

  /** One entry a peer, and a timer that is kept has not fired. */
  ghost predicate Wellformed(list: seq<Entry>) {
    list == []
    || (Lookup(list[1..], list[0].peer).None? && list[0].running != Some(Fired) && Wellformed(list[1..]))
  }

  function Without(list: seq<Entry>, peer: Peer): seq<Entry> {
    if list == [] then []
    else (if list[0].peer == peer then [] else [list[0]]) + Without(list[1..], peer)
  }

  lemma {:induction false} WithoutLookup(list: seq<Entry>, peer: Peer, q: Peer)
    ensures Lookup(Without(list, peer), q) == if q == peer then None else Lookup(list, q)
  {
    if list != [] {
      WithoutLookup(list[1..], peer, q);
      if list[0].peer != peer {
        assert Without(list, peer)[1..] == Without(list[1..], peer);
      } else {
        assert Without(list, peer) == Without(list[1..], peer);
      }
    }
  }

  lemma {:induction false} WithoutWellformed(list: seq<Entry>, peer: Peer)
    requires Wellformed(list)
    ensures Wellformed(Without(list, peer))
    ensures |Without(list, peer)| == |list| - if Lookup(list, peer).Some? then 1 else 0
  {
    if list != [] {
      WithoutWellformed(list[1..], peer);
      if list[0].peer != peer {
        assert Without(list, peer)[1..] == Without(list[1..], peer);
        WithoutLookup(list[1..], peer, list[0].peer);
      } else {
        assert Without(list, peer) == Without(list[1..], peer);
      }
    }
  }

  lemma {:induction false} AppendLookup(list: seq<Entry>, e: Entry, q: Peer)
    ensures Lookup(list + [e], q) ==
              if Lookup(list, q).Some? then Lookup(list, q) else if q == e.peer then Some(TimerOf(e)) else None
  {
    if list == [] {
      assert list + [e] == [e];
    } else {
      assert (list + [e])[1..] == list[1..] + [e];
      AppendLookup(list[1..], e, q);
    }
  }

  lemma {:induction false} AppendWellformed(list: seq<Entry>, e: Entry)
    requires Wellformed(list) && Lookup(list, e.peer).None? && e.running != Some(Fired)
    ensures Wellformed(list + [e])
  {
    if list == [] {
      assert list + [e] == [e];
    } else {
      assert (list + [e])[1..] == list[1..] + [e];
      AppendWellformed(list[1..], e);
      AppendLookup(list[1..], e, list[0].peer);
    }
  }

  lemma {:induction false} LookupAt(list: seq<Entry>, i: nat)
    requires Wellformed(list) && i < |list|
    ensures Lookup(list, list[i].peer) == Some(TimerOf(list[i])) && list[i].running != Some(Fired)
  {
    if i > 0 {
      LookupAt(list[1..], i - 1);
    }
  }

  lemma {:induction false} LookupIndex(list: seq<Entry>, p: Peer) returns (i: nat)
    requires Lookup(list, p).Some?
    ensures i < |list| && list[i].peer == p
  {
    if list[0].peer == p {
      i := 0;
    } else {
      var j := LookupIndex(list[1..], p);
      i := j + 1;
    }
  }

  function Clear(list: seq<Entry>, i: nat): seq<Entry>
    requires i < |list|
  {
    list[i := Entry(list[i].peer, None)]
  }

  lemma {:induction false} ClearLookup(list: seq<Entry>, i: nat, q: Peer)
    requires Wellformed(list) && i < |list|
    ensures Lookup(Clear(list, i), q) == if q == list[i].peer then Some(Fired) else Lookup(list, q)
  {
    if i == 0 {
      assert Clear(list, i)[1..] == list[1..];
    } else {
      assert Clear(list, i)[1..] == Clear(list[1..], i - 1);
      ClearLookup(list[1..], i - 1, q);
      LookupAt(list[1..], i - 1);
    }
  }

  lemma {:induction false} ClearWellformed(list: seq<Entry>, i: nat)
    requires Wellformed(list) && i < |list|
    ensures Wellformed(Clear(list, i))
  {
    if i == 0 {
      assert Clear(list, i)[1..] == list[1..];
    } else {
      assert Clear(list, i)[1..] == Clear(list[1..], i - 1);
      ClearWellformed(list[1..], i - 1);
      ClearLookup(list[1..], i - 1, list[0].peer);
      LookupAt(list[1..], i - 1);
    }
  }

  function Find(timers: Timers, p: Peer): Option<Timer> {
    if p in timers then Some(timers[p]) else None
  }

  /** The list holds exactly these timers. */
  ghost predicate Holds(list: seq<Entry>, timers: Timers) {
    Wellformed(list) && |list| == |timers| && forall p :: Lookup(list, p) == Find(timers, p)
  }

  class Stalls {
    var list: seq<Entry>
    /** The protocol's view of the list. */
    ghost var timers: Timers

    ghost predicate Valid()
      reads this
    {
      Holds(list, timers)
    }

    constructor ()
      ensures Valid() && timers == map[]
    {
      list, timers := [], map[];
    }

    method Start(peer: Peer)
      requires Valid() && peer !in timers
      modifies this
      ensures Valid() && timers == old(timers)[peer := Undispatched]
    {
      var e := Entry(peer, Some(Undispatched));
      assert Find(timers, peer) == Lookup(list, peer);
      AppendWellformed(list, e);
      forall q ensures Lookup(list + [e], q) == Find(timers[peer := Undispatched], q) {
        AppendLookup(list, e, q);
        assert Lookup(list, q) == Find(timers, q);
      }
      list, timers := list + [e], timers[peer := Undispatched];
    }

    method Retire(peer: Peer)
      requires Valid()
      modifies this
      ensures Valid() && timers == old(timers) - {peer}
    {
      RetireHolds(list, timers, peer);
      list, timers := Without(list, peer), timers - {peer};
    }

    method Admits() returns (admits: bool)
      requires Valid()
      ensures admits == AdmitAnother(timers)
    {
      var stalled := true;
      for i := 0 to |list|
        invariant stalled <==> forall k :: 0 <= k < i ==> list[k].running.None?
      {
        stalled := stalled && list[i].running.None?;
      }
      AllFired(list, timers);
      admits := |list| < MAX_CONCURRENT_EARLY_READS && stalled;
    }

    /** One poll: the first running timer that is ready fires and is cleared. */
    method PollNext(ready: Peer -> bool) returns (fired: Option<Peer>)
      requires Valid()
      modifies this
      ensures Valid()
      ensures fired.Some? ==>
                && fired.value in old(timers) && !old(timers)[fired.value].Fired? && ready(fired.value)
                && timers == old(timers)[fired.value := Fired]
      ensures fired.None? ==>
                && timers == old(timers)
                && forall p :: p in timers && !timers[p].Fired? ==> !ready(p)
    {
      for i := 0 to |list|
        invariant list == old(list) && timers == old(timers)
        invariant forall k :: 0 <= k < i && list[k].running.Some? ==> !ready(list[k].peer)
      {
        if list[i].running.Some? && ready(list[i].peer) {
          fired := Some(list[i].peer);
          Fires(list, timers, i);
          list, timers := Clear(list, i), timers[list[i].peer := Fired];
          return;
        }
      }
      NoneReady(list, timers, ready);
      fired := None;
    }
  }

  lemma RetireHolds(list: seq<Entry>, timers: Timers, peer: Peer)
    requires Holds(list, timers)
    ensures Holds(Without(list, peer), timers - {peer})
  {
    WithoutWellformed(list, peer);
    assert Lookup(list, peer) == Find(timers, peer);
    hide Without;
    forall q ensures Lookup(Without(list, peer), q) == Find(timers - {peer}, q) {
      WithoutLookup(list, peer, q);
      assert Lookup(list, q) == Find(timers, q);
    }
    RemovalSize(timers, peer);
  }

  lemma RemovalSize(timers: Timers, peer: Peer)
    ensures |timers - {peer}| == |timers| - if peer in timers then 1 else 0
  {
    assert |timers| == |timers.Keys| && |timers - {peer}| == |(timers - {peer}).Keys|;
    assert (timers - {peer}).Keys == timers.Keys - {peer};
  }

  lemma AllFired(list: seq<Entry>, timers: Timers)
    requires Holds(list, timers)
    ensures (forall k :: 0 <= k < |list| ==> list[k].running.None?) <==> forall p :: p in timers ==> timers[p].Fired?
  {
    forall k | 0 <= k < |list|
      ensures list[k].peer in timers && timers[list[k].peer] == TimerOf(list[k])
      ensures TimerOf(list[k]).Fired? <==> list[k].running.None?
    {
      LookupAt(list, k);
      assert Lookup(list, list[k].peer) == Find(timers, list[k].peer);
    }
    forall p | p in timers
      ensures exists k :: 0 <= k < |list| && list[k].peer == p
    {
      assert Lookup(list, p) == Find(timers, p);
      var k := LookupIndex(list, p);
    }
  }

  lemma Fires(list: seq<Entry>, timers: Timers, i: nat)
    requires Holds(list, timers) && i < |list| && list[i].running.Some?
    ensures list[i].peer in timers && !timers[list[i].peer].Fired?
    ensures Holds(Clear(list, i), timers[list[i].peer := Fired])
  {
    var p := list[i].peer;
    LookupAt(list, i);
    assert Lookup(list, p) == Find(timers, p);
    ClearWellformed(list, i);
    forall q ensures Lookup(Clear(list, i), q) == Find(timers[p := Fired], q) {
      ClearLookup(list, i, q);
      assert Lookup(list, q) == Find(timers, q);
    }
    assert timers[p := Fired].Keys == timers.Keys;
    assert |timers[p := Fired]| == |timers[p := Fired].Keys| && |timers| == |timers.Keys|;
  }

  lemma NoneReady(list: seq<Entry>, timers: Timers, ready: Peer -> bool)
    requires Holds(list, timers)
    requires forall k :: 0 <= k < |list| && list[k].running.Some? ==> !ready(list[k].peer)
    ensures forall p :: p in timers && !timers[p].Fired? ==> !ready(p)
  {
    forall p | p in timers && !timers[p].Fired?
      ensures !ready(p)
    {
      assert Lookup(list, p) == Find(timers, p);
      var k := LookupIndex(list, p);
      LookupAt(list, k);
    }
  }
}
