/** The negative cache for transport endpoints, `client_engine.rs`, against the
    log of what really happened to each peer. Time is read once a call. */
module FailureCache {
  import opened Prelude

  type Endpoint = string

  datatype FailureRecord = FailureRecord(endpoint: Endpoint, failedAt: nat, refused: bool)

  /** What happened: an endpoint of a peer failed or refused, or the peer was
      reached. */
  datatype Event<K> = Failed(peer: K, record: FailureRecord) | Reached(peer: K)

  datatype Limits = Limits(cooldown: nat, refusalCooldown: nat, maxEntries: nat)

  function Remaining(limits: Limits, record: FailureRecord, now: nat): nat {
    var cooldown := if record.refused then limits.refusalCooldown else limits.cooldown;
    var elapsed := if now < record.failedAt then 0 else now - record.failedAt;
    if cooldown < elapsed then 0 else cooldown - elapsed
  }

  /** The latest event of a peer in a log without bound. */
  function Latest<K(==)>(log: seq<Event<K>>, peer: K): Option<Event<K>> {
    if log == [] then None
    else if log[|log| - 1].peer == peer then Some(log[|log| - 1])
    else Latest(log[..|log| - 1], peer)
  }

  /** The end of the cooldown: the longer one after a failure, the shorter one after
      the endpoint answered and declined. */
  function EndsAt(limits: Limits, record: FailureRecord): nat {
    if record.refused then record.failedAt + limits.refusalCooldown else record.failedAt + limits.cooldown
  }

  lemma RemainingExact(limits: Limits, record: FailureRecord, now: nat)
    requires record.failedAt <= now
    ensures Remaining(limits, record, now) == if EndsAt(limits, record) <= now then 0 else EndsAt(limits, record) - now
  {
  }

  /** The log says that dialling this endpoint is still to be avoided: the latest
      the peer did was fail or refuse there, and the cooldown of that lasts. */
  predicate LogSuppresses<K(==)>(limits: Limits, log: seq<Event<K>>, peer: K, endpoint: Endpoint, now: nat) {
    match Latest(log, peer)
    case Some(Failed(_, record)) => record.endpoint == endpoint && now < EndsAt(limits, record)
    case _ => false
  }

  /** The log says that the peer's endpoint declined and is still to be let alone. */
  predicate LogRefuses<K(==)>(limits: Limits, log: seq<Event<K>>, peer: K, now: nat) {
    match Latest(log, peer)
    case Some(Failed(_, record)) => record.refused && now < record.failedAt + limits.refusalCooldown
    case _ => false
  }

  lemma LatestAppend<K>(log: seq<Event<K>>, e: Event<K>, peer: K)
    ensures Latest(log + [e], peer) == if e.peer == peer then Some(e) else Latest(log, peer)
  {
    assert (log + [e])[..|log|] == log;
  }

  /** Every entry is the peer's latest event. */
  ghost predicate Sound<K(!new)>(entries: map<K, FailureRecord>, log: seq<Event<K>>) {
    forall p :: p in entries ==> Latest(log, p) == Some(Failed(p, entries[p]))
  }

  /** Nothing in the log is of the future. */
  ghost predicate Past<K(!new)>(log: seq<Event<K>>, clock: nat) {
    forall p :: Latest(log, p).Some? && Latest(log, p).value.Failed? ==> Latest(log, p).value.record.failedAt <= clock
  }

  /** A peer whose latest event is a failure has an entry, unless it was lost or has
      run out by `clock`. */
  ghost predicate Complete<K(!new)>(limits: Limits, entries: map<K, FailureRecord>, log: seq<Event<K>>, lost: set<K>,
                                    clock: nat) {
    forall p, record :: Latest(log, p) == Some(Failed(p, record)) && p !in entries && p !in lost ==>
      EndsAt(limits, record) <= clock
  }

  class EndpointFailureCache<K(==, !new)> {
    const limits: Limits
    var entries: map<K, FailureRecord>
    /** All that happened. */
    ghost var log: seq<Event<K>>
    /** Peers whose entry was evicted, or dropped when another of their endpoints
        was asked for, since their latest event. */
    ghost var lost: set<K>
    /** The latest time read. */
    ghost var clock: nat

    ghost predicate Valid()
      reads this
    {
      && limits.maxEntries >= 1 && |entries| <= limits.maxEntries
      && Sound(entries, log) && Complete(limits, entries, log, lost, clock) && Past(log, clock)
    }

    constructor (cooldown: nat, refusalCooldown: nat, maxEntries: nat)
      ensures Valid() && entries == map[] && log == [] && lost == {}
      ensures limits == Limits(cooldown, refusalCooldown, if maxEntries < 1 then 1 else maxEntries)
    {
      limits := Limits(cooldown, refusalCooldown, if maxEntries < 1 then 1 else maxEntries);
      entries, log, lost, clock := map[], [], {}, 0;
    }

    /** True only if the log suppresses the endpoint, and then always, unless the
        peer's entry was lost. */
    method IsSuppressed(peer: K, endpoint: Endpoint, now: nat) returns (suppressed: bool)
      requires Valid() && clock <= now
      modifies this
      ensures Valid() && clock == now && log == old(log)
      ensures suppressed ==> LogSuppresses(limits, log, peer, endpoint, now)
      ensures LogSuppresses(limits, log, peer, endpoint, now) && !suppressed ==> peer in old(lost)
      ensures entries == if suppressed then old(entries) else old(entries) - {peer}
      ensures forall p :: p in lost ==>
                p in old(lost) || (p == peer && p in old(entries) && old(entries)[p].endpoint != endpoint)
    {
      hide Sound, Complete, Past;
      ClockMoves(limits, entries, log, lost, clock, now);
      QueryExact(limits, entries, log, lost, now, peer, endpoint);
      clock := now;
      if peer !in entries {
        assert entries - {peer} == entries;
        return false;
      }
      var record := entries[peer];
      if record.endpoint != endpoint || Remaining(limits, record, now) == 0 {
        DropKeeps(limits, entries, log, lost, now, peer, endpoint);
        if record.endpoint != endpoint { lost := lost + {peer}; }
        DropShrinks(entries, peer);
        entries := entries - {peer};
        return false;
      }
      suppressed := true;
    }

    /** The peers whose latest event in the log is a refusal still inside its cooldown,
        each with what is left of it; all of them, but for lost ones. */
    method Refusals(now: nat) returns (refused: map<K, nat>)
      requires Valid() && clock <= now
      ensures forall p :: p in refused ==>
                LogRefuses(limits, log, p, now)
                  && now + refused[p] == Latest(log, p).value.record.failedAt + limits.refusalCooldown
      ensures forall p :: LogRefuses(limits, log, p, now) && p !in refused ==> p in lost
    {
      refused := map p | p in entries && entries[p].refused && Remaining(limits, entries[p], now) > 0
                   :: Remaining(limits, entries[p], now);
      ClockMoves(limits, entries, log, lost, clock, now);
      forall p
        ensures p in refused ==>
                  LogRefuses(limits, log, p, now)
                    && now + refused[p] == Latest(log, p).value.record.failedAt + limits.refusalCooldown
        ensures LogRefuses(limits, log, p, now) && p !in refused ==> p in lost
      {
        RefusalExact(limits, entries, log, lost, now, p);
        if p in entries { RemainingExact(limits, entries[p], now); }
      }
    }

    /** An entry with the least time remaining. */
    method Soonest(now: nat) returns (soonest: K)
      requires |entries| > 0
      ensures soonest in entries
      ensures forall p :: p in entries ==>
                Remaining(limits, entries[soonest], now) <= Remaining(limits, entries[p], now)
    {
      var keys := entries.Keys;
      assert |keys| > 0;
      soonest :| soonest in keys;
      var rest := keys - {soonest};
      while rest != {}
        invariant rest <= entries.Keys && soonest in entries
        invariant forall p :: p in entries && p !in rest ==>
                    Remaining(limits, entries[soonest], now) <= Remaining(limits, entries[p], now)
        decreases |rest|
      {
        var p :| p in rest;
        if Remaining(limits, entries[p], now) < Remaining(limits, entries[soonest], now) { soonest := p; }
        rest := rest - {p};
      }
    }

    /** Remember a failure or refusal. A full cache first evicts an entry whose
        cooldown is over or ends first; nothing else is touched. */
    method Record(peer: K, endpoint: Endpoint, refused: bool, now: nat) returns (evicted: Option<K>)
      requires Valid() && clock <= now
      modifies this
      ensures Valid() && clock == now
      ensures log == old(log) + [Failed(peer, FailureRecord(endpoint, now, refused))]
      ensures evicted.Some? <==> peer !in old(entries) && |old(entries)| == limits.maxEntries
      ensures evicted.Some? ==>
                && evicted.value in old(entries)
                && forall p :: p in old(entries) ==>
                     var end := EndsAt(limits, old(entries)[evicted.value]);
                     end <= now || end <= EndsAt(limits, old(entries)[p])
      ensures var kept := if evicted.Some? then old(entries) - {evicted.value} else old(entries);
        entries == kept[peer := FailureRecord(endpoint, now, refused)]
      ensures lost == (if evicted.Some? then old(lost) + {evicted.value} else old(lost)) - {peer}
    {
      ClockMoves(limits, entries, log, lost, clock, now);
      clock := now;
      evicted := None;
      if peer !in entries && |entries| >= limits.maxEntries {
        var soonest := Soonest(now);
        evicted := Some(soonest);
        forall p | p in entries
          ensures var end := EndsAt(limits, entries[soonest]); end <= now || end <= EndsAt(limits, entries[p])
        {
          RemainingExact(limits, entries[soonest], now);
          RemainingExact(limits, entries[p], now);
        }
        DropShrinks(entries, soonest);
        entries := entries - {soonest};
        lost := lost + {soonest};
      }
      var record := FailureRecord(endpoint, now, refused);
      RecordKeeps(limits, entries, log, lost, clock, peer, record);
      AddGrows(entries, peer, record);
      entries := entries[peer := record];
      log := log + [Failed(peer, record)];
      lost := lost - {peer};
    }

    method RecordSuccess(peer: K)
      requires Valid()
      modifies this
      ensures Valid() && clock == old(clock) && log == old(log) + [Reached(peer)]
      ensures entries == old(entries) - {peer} && lost == old(lost)
    {
      hide Sound, Complete, Past;
      SuccessKeeps(limits, entries, log, lost, clock, peer);
      if peer in entries { DropShrinks(entries, peer); } else { assert entries - {peer} == entries; }
      entries := entries - {peer};
      log := log + [Reached(peer)];
    }
  }

  lemma DropShrinks<K, V>(m: map<K, V>, k: K)
    requires k in m
    ensures |m - {k}| == |m| - 1
  {
    assert (m - {k}).Keys == m.Keys - {k};
    assert |m| == |m.Keys| && |m - {k}| == |(m - {k}).Keys|;
  }

  lemma AddGrows<K, V>(m: map<K, V>, k: K, v: V)
    ensures |m[k := v]| == |m| + if k in m then 0 else 1
  {
    assert m[k := v].Keys == m.Keys + {k};
    assert |m| == |m.Keys| && |m[k := v]| == |m[k := v].Keys|;
  }

  lemma ClockMoves<K(!new)>(limits: Limits, entries: map<K, FailureRecord>, log: seq<Event<K>>, lost: set<K>,
                            clock: nat, now: nat)
    requires Complete(limits, entries, log, lost, clock) && clock <= now && Past(log, clock)
    ensures Complete(limits, entries, log, lost, now) && Past(log, now)
  {
  }

  /** What an entry, or its absence, says of the log. */
  lemma QueryExact<K(!new)>(limits: Limits, entries: map<K, FailureRecord>, log: seq<Event<K>>, lost: set<K>, now: nat,
                            peer: K, endpoint: Endpoint)
    requires Sound(entries, log) && Complete(limits, entries, log, lost, now) && Past(log, now)
    ensures peer in entries ==> (LogSuppresses(limits, log, peer, endpoint, now) <==>
              entries[peer].endpoint == endpoint && Remaining(limits, entries[peer], now) > 0)
    ensures peer !in entries && LogSuppresses(limits, log, peer, endpoint, now) ==> peer in lost
  {
    if peer in entries {
      assert Latest(log, peer) == Some(Failed(peer, entries[peer]));
      RemainingExact(limits, entries[peer], now);
    } else {
      LatestPeer(log, peer);
    }
  }

  lemma RefusalExact<K(!new)>(limits: Limits, entries: map<K, FailureRecord>, log: seq<Event<K>>, lost: set<K>,
                             now: nat, peer: K)
    requires Sound(entries, log) && Complete(limits, entries, log, lost, now) && Past(log, now)
    ensures peer in entries ==>
              Latest(log, peer) == Some(Failed(peer, entries[peer])) && entries[peer].failedAt <= now
    ensures peer !in entries && LogRefuses(limits, log, peer, now) ==> peer in lost
  {
    LatestPeer(log, peer);
  }

  lemma {:induction false} LatestPeer<K>(log: seq<Event<K>>, peer: K)
    ensures Latest(log, peer).Some? ==> Latest(log, peer).value.peer == peer
  {
    if log != [] { LatestPeer(log[..|log| - 1], peer); }
  }

  lemma DropKeeps<K(!new)>(limits: Limits, entries: map<K, FailureRecord>, log: seq<Event<K>>, lost: set<K>, now: nat,
                           peer: K, endpoint: Endpoint)
    requires Sound(entries, log) && Complete(limits, entries, log, lost, now) && Past(log, now) && peer in entries
    requires entries[peer].endpoint != endpoint || Remaining(limits, entries[peer], now) == 0
    ensures Sound(entries - {peer}, log)
    ensures var gone := if entries[peer].endpoint != endpoint then lost + {peer} else lost;
      Complete(limits, entries - {peer}, log, gone, now)
  {
    assert Latest(log, peer) == Some(Failed(peer, entries[peer]));
    RemainingExact(limits, entries[peer], now);
  }

  lemma RecordKeeps<K(!new)>(limits: Limits, entries: map<K, FailureRecord>, log: seq<Event<K>>, lost: set<K>,
                             clock: nat, peer: K, record: FailureRecord)
    requires Sound(entries, log) && Complete(limits, entries, log, lost, clock) && Past(log, clock)
    requires record.failedAt <= clock
    ensures Sound(entries[peer := record], log + [Failed(peer, record)]) && Past(log + [Failed(peer, record)], clock)
    ensures Complete(limits, entries[peer := record], log + [Failed(peer, record)], lost - {peer}, clock)
  {
    var e := Failed(peer, record);
    forall p ensures Latest(log + [e], p) == if p == peer then Some(e) else Latest(log, p) {
      LatestAppend(log, Failed(peer, record), p);
    }
  }

  lemma SuccessKeeps<K(!new)>(limits: Limits, entries: map<K, FailureRecord>, log: seq<Event<K>>, lost: set<K>,
                              clock: nat, peer: K)
    requires Sound(entries, log) && Complete(limits, entries, log, lost, clock) && Past(log, clock)
    ensures Sound(entries - {peer}, log + [Reached(peer)]) && Past(log + [Reached(peer)], clock)
    ensures Complete(limits, entries - {peer}, log + [Reached(peer)], lost, clock)
  {
    forall p ensures Latest(log + [Reached(peer)], p) == if p == peer then Some(Reached(peer)) else Latest(log, p) {
      LatestAppend(log, Reached(peer), p);
    }
  }
}
