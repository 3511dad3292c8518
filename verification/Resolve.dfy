/** Resolving a nested data map, `client_engine/files.rs`. The resolver is a
    synchronous program of the self_encryption crate that asks for batches of
    records. It is suspended at the first batch with records not yet cached, the
    missing ones are fetched and verified, and it is replayed from the start. */
module Resolve {
  import opened Prelude
  import opened Sorting
  import opened DeferredFetch

  /** Where a resolver stands: ended with a map or a rejection, or asking for a
      batch of records by chunk index and address. */
  datatype View<M> = Done(result: Option<M>) | Ask(batch: seq<Request>)

  /** A deterministic resolver. Its states shrink in `rank`, as the depth of a
      nested map does, so it ends whatever it is answered. */
  datatype Resolver<!S, M> = Resolver(view: S -> View<M>, resume: (S, seq<Record>) -> S, rank: S -> nat)

  ghost predicate Ends<S(!new), M>(resolver: Resolver<S, M>) {
    forall s: S, answer :: resolver.view(s).Ask? ==> resolver.rank(resolver.resume(s, answer)) < resolver.rank(s)
  }

  /** The records of a batch, in batch order. */
  function Answer(batch: seq<Request>, lookup: Address -> Bytes): (r: seq<Record>)
    ensures |r| == |batch| && forall i :: 0 <= i < |r| ==> r[i] == (batch[i].index, lookup(batch[i].address))
  {
    seq(|batch|, i requires 0 <= i < |batch| => (batch[i].index, lookup(batch[i].address)))
  }

  /** The resolver run once, directly against the full record store. */
  ghost function Direct<S(!new), M>(resolver: Resolver<S, M>, s: S, lookup: Address -> Bytes): Option<M>
    requires Ends(resolver)
    decreases resolver.rank(s)
  {
    match resolver.view(s)
    case Done(result) => result
    case Ask(batch) => Direct(resolver, resolver.resume(s, Answer(batch, lookup)), lookup)
  }

  function AddressesOf(batch: seq<Request>): set<Address> {
    set q | q in batch :: q.address
  }

  /** The addresses a direct run asks for. */
  ghost function Asked<S(!new), M>(resolver: Resolver<S, M>, s: S, lookup: Address -> Bytes): set<Address>
    requires Ends(resolver)
    decreases resolver.rank(s)
  {
    match resolver.view(s)
    case Done(_) => {}
    case Ask(batch) => AddressesOf(batch) + Asked(resolver, resolver.resume(s, Answer(batch, lookup)), lookup)
  }

  /** Every cached record is the one at its address. */
  ghost predicate Verified(cache: map<Address, Bytes>, hash: Bytes -> Address) {
    forall a :: a in cache ==> hash(cache[a]) == a
  }

  /** The record store: the record at an address is the one that hashes to it.
      BLAKE3 is taken to be free of collisions. */
  ghost predicate IsStore(lookup: Address -> Bytes, hash: Bytes -> Address) {
    forall bytes :: lookup(hash(bytes)) == bytes
  }

  /** The requests of a batch that are not cached, in order. */
  ghost function Missing(batch: seq<Request>, cached: set<Address>): (missing: seq<Request>)
    ensures forall q :: q in missing <==> q in batch && q.address !in cached
  {
    if batch == [] then []
    else
      var last := |batch| - 1;
      assert batch == batch[..last] + [batch[last]];
      Missing(batch[..last], cached) + if batch[last].address in cached then [] else [batch[last]]
  }

  method MissingOf(batch: seq<Request>, cache: map<Address, Bytes>) returns (missing: seq<Request>)
    ensures missing == Missing(batch, cache.Keys)
  {
    missing := [];
    for i := 0 to |batch|
      invariant missing == Missing(batch[..i], cache.Keys)
    {
      assert batch[..i + 1][..i] == batch[..i];
      if batch[i].address !in cache { missing := missing + [batch[i]]; }
    }
    assert batch[..|batch|] == batch;
  }

  function AddressList(missing: seq<Request>): (r: seq<Address>)
    ensures |r| == |missing| && forall i :: 0 <= i < |r| ==> r[i] == missing[i].address
    ensures forall a :: a in r <==> a in AddressesOf(missing)
  {
    var r := seq(|missing|, i requires 0 <= i < |missing| => missing[i].address);
    assert forall q :: q in missing ==> exists i :: 0 <= i < |r| && missing[i] == q && r[i] == q.address;
    r
  }

  // The passes to come

  /** The lists of addresses to fetch, pass by pass, when the records at `cached`
      are at hand: what the direct run asks for in a batch and has not asked for
      before. */
  ghost function Plan<S(!new), M>(resolver: Resolver<S, M>, s: S, lookup: Address -> Bytes,
                                  cached: set<Address>): seq<seq<Address>>
    requires Ends(resolver)
    decreases resolver.rank(s)
  {
    match resolver.view(s)
    case Done(_) => []
    case Ask(batch) =>
      var missing := Missing(batch, cached);
      var next := resolver.resume(s, Answer(batch, lookup));
      if missing == [] then Plan(resolver, next, lookup, cached)
      else [AddressList(missing)] + Plan(resolver, next, lookup, cached + AddressesOf(missing))
  }

  lemma MissingOnce(batch: seq<Request>, cached: set<Address>, more: set<Address>)
    requires AddressesOf(Missing(batch, cached)) <= more
    ensures Missing(batch, cached + more) == []
  {
    assert forall q :: q in Missing(batch, cached + more) ==> q in Missing(batch, cached) && q.address !in more;
  }

  /** Once its first list is fetched, the rest of a plan is the plan. */
  lemma {:induction false} PlanGoesOn<S(!new), M>(resolver: Resolver<S, M>, s: S, lookup: Address -> Bytes,
                                                  cached: set<Address>, more: set<Address>)
    requires Ends(resolver)
    requires Plan(resolver, s, lookup, cached) != []
    requires forall a :: a in more <==> a in Plan(resolver, s, lookup, cached)[0]
    ensures Plan(resolver, s, lookup, cached + more) == Plan(resolver, s, lookup, cached)[1..]
    decreases resolver.rank(s)
  {
    var batch := resolver.view(s).batch;
    var missing := Missing(batch, cached);
    if missing == [] {
      PlanGoesOn(resolver, resolver.resume(s, Answer(batch, lookup)), lookup, cached, more);
    } else {
      assert more == AddressesOf(missing);
    }
    MissingOnce(batch, cached, more);
  }

  predicate Listed(lists: seq<seq<Address>>, a: Address) {
    exists k :: 0 <= k < |lists| && a in lists[k]
  }

  lemma ListedFirst(list: seq<Address>, lists: seq<seq<Address>>, a: Address)
    ensures Listed([list] + lists, a) <==> a in list || Listed(lists, a)
  {
    var all := [list] + lists;
    if a in list { assert a in all[0]; }
    if Listed(lists, a) {
      var k :| 0 <= k < |lists| && a in lists[k];
      var l := k + 1;
      assert a in all[l];
    }
  }

  /** A plan lists exactly what the direct run asks for and is not cached. */
  lemma {:induction false} PlanCovers<S(!new), M>(resolver: Resolver<S, M>, s: S, lookup: Address -> Bytes,
                                                  cached: set<Address>, a: Address)
    requires Ends(resolver)
    ensures Listed(Plan(resolver, s, lookup, cached), a) <==> a in Asked(resolver, s, lookup) && a !in cached
    decreases resolver.rank(s)
  {
    match resolver.view(s)
    case Done(_) =>
    case Ask(batch) =>
      var missing := Missing(batch, cached);
      var next := resolver.resume(s, Answer(batch, lookup));
      assert a in AddressesOf(missing) <==> a in AddressesOf(batch) && a !in cached;
      if missing == [] {
        PlanCovers(resolver, next, lookup, cached, a);
      } else {
        PlanCovers(resolver, next, lookup, cached + AddressesOf(missing), a);
        ListedFirst(AddressList(missing), Plan(resolver, next, lookup, cached + AddressesOf(missing)), a);
      }
  }

  /** No pass fetches nothing, and none what an earlier one fetched. */
  ghost predicate Apart(lists: seq<seq<Address>>) {
    && (forall k :: 0 <= k < |lists| ==> lists[k] != [])
    && (forall j, k, a :: 0 <= j < k < |lists| && a in lists[j] ==> a !in lists[k])
  }

  lemma ApartFirst(list: seq<Address>, lists: seq<seq<Address>>)
    requires list != [] && Apart(lists) && forall a :: a in list ==> !Listed(lists, a)
    ensures Apart([list] + lists)
  {
  }

  lemma NothingApart()
    ensures Apart([])
  {
  }

  lemma {:induction false} PlanApart<S(!new), M>(resolver: Resolver<S, M>, s: S, lookup: Address -> Bytes,
                                                 cached: set<Address>)
    requires Ends(resolver)
    ensures Apart(Plan(resolver, s, lookup, cached))
    decreases resolver.rank(s)
  {
    hide Apart, Listed;
    match resolver.view(s)
    case Done(_) => NothingApart();
    case Ask(batch) =>
      var missing := Missing(batch, cached);
      var next := resolver.resume(s, Answer(batch, lookup));
      var known := cached + AddressesOf(missing);
      if missing == [] {
        PlanApart(resolver, next, lookup, cached);
      } else {
        PlanApart(resolver, next, lookup, known);
        forall a | a in AddressList(missing) ensures !Listed(Plan(resolver, next, lookup, known), a) {
          PlanCovers(resolver, next, lookup, known, a);
        }
        ApartFirst(AddressList(missing), Plan(resolver, next, lookup, known));
      }
  }

  /** Nothing is left to fetch when all the direct run asks for is cached, and the
      next list is asked for and not cached. */
  lemma NextAsked<S(!new), M>(resolver: Resolver<S, M>, s: S, lookup: Address -> Bytes, cached: set<Address>)
    requires Ends(resolver)
    ensures var plan := Plan(resolver, s, lookup, cached);
      && (plan == [] <==> Asked(resolver, s, lookup) <= cached)
      && (plan != [] ==> forall a :: a in plan[0] ==> a in Asked(resolver, s, lookup) && a !in cached)
  {
    hide Ends, Plan, Asked, Apart;
    var plan := Plan(resolver, s, lookup, cached);
    forall a ensures Listed(plan, a) <==> a in Asked(resolver, s, lookup) && a !in cached {
      PlanCovers(resolver, s, lookup, cached, a);
    }
    if plan != [] {
      assert plan[0] != [] by { PlanApart(resolver, s, lookup, cached); FirstNotEmpty(plan); }
      assert plan[0][0] in plan[0] && Listed(plan, plan[0][0]);
    }
  }

  lemma FirstNotEmpty(lists: seq<seq<Address>>)
    requires Apart(lists) && lists != []
    ensures lists[0] != []
  {
  }

  /** How a pass ends. */
  datatype Pass<M> = Finished(result: Option<M>) | Suspended(missing: seq<Request>)

  /** A batch that is wholly cached is answered as the store answers it. */
  lemma CachedAnswer(batch: seq<Request>, cache: map<Address, Bytes>, lookup: Address -> Bytes, hash: Bytes -> Address,
                     answer: seq<Record>)
    requires Verified(cache, hash) && IsStore(lookup, hash)
    requires |answer| == |batch|
    requires forall i :: 0 <= i < |batch| ==>
               batch[i].address in cache && answer[i] == (batch[i].index, cache[batch[i].address])
    ensures answer == Answer(batch, lookup) && AddressesOf(batch) <= cache.Keys
  {
    forall i | 0 <= i < |batch|
      ensures answer[i] == Answer(batch, lookup)[i]
    {
      assert lookup(hash(cache[batch[i].address])) == cache[batch[i].address];
    }
  }

  method AnswerFrom(batch: seq<Request>, cache: map<Address, Bytes>) returns (answer: seq<Record>)
    requires forall i :: 0 <= i < |batch| ==> batch[i].address in cache
    ensures |answer| == |batch|
    ensures forall i :: 0 <= i < |batch| ==> answer[i] == (batch[i].index, cache[batch[i].address])
  {
    answer := seq(|batch|, i requires 0 <= i < |batch| => (batch[i].index, cache[batch[i].address]));
  }

  /** One pass from the start over what is cached. It ends as the direct run
      does, having asked only for cached records, or stops at the first batch
      with records that are not cached, with exactly those. */
  method Replay<S(!new), M>(resolver: Resolver<S, M>, root: S, cache: map<Address, Bytes>,
                            ghost lookup: Address -> Bytes, ghost hash: Bytes -> Address)
    returns (pass: Pass<M>)
    requires Ends(resolver) && Verified(cache, hash) && IsStore(lookup, hash)
    ensures pass.Finished? ==> pass.result == Direct(resolver, root, lookup)
    ensures pass.Finished? <==> Plan(resolver, root, lookup, cache.Keys) == []
    ensures pass.Finished? ==> Asked(resolver, root, lookup) <= cache.Keys
    ensures pass.Suspended? ==>
              && AddressList(pass.missing) == Plan(resolver, root, lookup, cache.Keys)[0]
              && pass.missing != [] && AddressesOf(pass.missing) !! cache.Keys
              && AddressesOf(pass.missing) <= Asked(resolver, root, lookup)
  {
    hide Verified, IsStore, Missing, Asked;
    var s := root;
    NextAsked(resolver, root, lookup, cache.Keys);
    while true
      invariant Direct(resolver, s, lookup) == Direct(resolver, root, lookup)
      invariant Plan(resolver, s, lookup, cache.Keys) == Plan(resolver, root, lookup, cache.Keys)
      decreases resolver.rank(s)
    {
      match resolver.view(s) {
        case Done(result) => return Finished(result);
        case Ask(batch) =>
          var missing := MissingOf(batch, cache);
          if missing != [] {
            return Suspended(missing);
          }
          forall i | 0 <= i < |batch| ensures batch[i].address in cache {
            assert batch[i] in batch && batch[i] !in missing;
          }
          var answer := AnswerFrom(batch, cache);
          CachedAnswer(batch, cache, lookup, hash, answer);
          s := resolver.resume(s, answer);
      }
    }
  }

  // Fetching one batch

  /** Verify one fetched record. */
  function Fetched<E>(address: Address, reply: Result<Bytes, E>, hash: Bytes -> Address): Attempt<E> {
    match reply
    case Err(error) => Abort(Fetch(error))
    case Ok(bytes) => if hash(bytes) == address then Got(bytes) else Abort(Invalid)
  }

  /** The reply is the record at the address. */
  predicate IsRecord<E>(address: Address, reply: Result<Bytes, E>, hash: Bytes -> Address) {
    reply.Ok? && hash(reply.value) == address
  }

  /** It is not, and `error` is why. */
  ghost predicate IsMiss<E>(address: Address, reply: Result<Bytes, E>, hash: Bytes -> Address, error: ReadError<E>) {
    if reply.Err? then error == Fetch(reply.error) else hash(reply.value) != address && error == Invalid
  }

  lemma FetchedAsReplied<E>(address: Address, reply: Result<Bytes, E>, hash: Bytes -> Address)
    ensures Fetched(address, reply, hash).Got? <==> IsRecord(address, reply, hash)
    ensures forall error :: Fetched(address, reply, hash) == Abort(error) <==> IsMiss(address, reply, hash, error)
  {
  }

  lemma MissIsNoRecord<E>(address: Address, reply: Result<Bytes, E>, hash: Bytes -> Address, error: ReadError<E>)
    requires IsMiss(address, reply, hash, error)
    ensures !IsRecord(address, reply, hash)
  {
  }

  function FetchOutcome<E>(addresses: seq<Address>, replies: nat -> Result<Bytes, E>,
                           hash: Bytes -> Address): Outcomes<E> {
    (id: nat, _: nat) => if id < |addresses| then Fetched(addresses[id], replies(id), hash) else Abort(Invalid)
  }

  /** Requests for a list of addresses, filed by position. */
  function ByPosition(addresses: seq<Address>): (r: seq<Request>)
    ensures |r| == |addresses| && forall i :: 0 <= i < |r| ==> r[i] == Request(i, addresses[i])
  {
    seq(|addresses|, i requires 0 <= i < |addresses| => Request(i, addresses[i]))
  }

  lemma FirstRound<E>(requests: seq<Request>, outcome: Outcomes<E>, got: seq<nat>, results: seq<Record>)
    requires NoDup(got) && forall id :: id in got ==> id < |requests|
    requires forall id :: 0 <= id < |requests| ==> id in got
    requires Filed(requests, outcome, got, results)
    ensures forall id: nat :: id < |requests| ==> Obtained(outcome, id)
    ensures multiset(results) == multiset(Expected(requests, outcome))
  {
    AllFiled(requests, outcome, 1, got, results);
  }

  lemma PositionsFiled<E>(addresses: seq<Address>, replies: nat -> Result<Bytes, E>, hash: Bytes -> Address,
                          records: seq<Record>)
    requires var outcome := FetchOutcome(addresses, replies, hash);
      && (forall id: nat :: id < |addresses| ==> Obtained(outcome, id))
      && multiset(records) == multiset(Expected(ByPosition(addresses), outcome))
      && Ascending(records, (r: Record) => r.0)
    ensures |records| == |addresses|
    ensures forall id :: 0 <= id < |records| ==> records[id].0 == id && hash(records[id].1) == addresses[id]
  {
    var outcome := FetchOutcome(addresses, replies, hash);
    ExpectedInOrder(ByPosition(addresses), outcome, records);
    forall id: nat | id < |records|
      ensures records[id].0 == id && hash(records[id].1) == addresses[id]
    {
      assert Obtained(outcome, id);
      var round :| GotAt(outcome, id, round);
      BytesUnique(outcome, id, round);
      assert Fetched(addresses[id], replies(id), hash).Got?;
    }
  }

  lemma AllRecords<E>(addresses: seq<Address>, replies: nat -> Result<Bytes, E>, hash: Bytes -> Address)
    requires var outcome := FetchOutcome(addresses, replies, hash);
      forall id: nat :: id < |addresses| ==> Obtained(outcome, id)
    ensures forall id :: 0 <= id < |addresses| ==> IsRecord(addresses[id], replies(id), hash)
  {
    var outcome := FetchOutcome(addresses, replies, hash);
    forall id: nat | id < |addresses|
      ensures IsRecord(addresses[id], replies(id), hash)
    {
      assert Obtained(outcome, id);
      var round :| GotAt(outcome, id, round);
      assert outcome(id, round).Got?;
    }
  }

  /** Fetch and verify a list of records: all of them, by position, or the error
      of one that could not be fetched or verified. */
  method FetchRecords<E>(addresses: seq<Address>, replies: nat -> Result<Bytes, E>, hash: Bytes -> Address)
    returns (result: Result<seq<Record>, ReadError<E>>)
    ensures result.Ok? <==> forall id :: 0 <= id < |addresses| ==> IsRecord(addresses[id], replies(id), hash)
    ensures result.Ok? ==> |result.value| == |addresses|
    ensures result.Ok? ==> forall id :: 0 <= id < |addresses| ==>
              result.value[id].0 == id && hash(result.value[id].1) == addresses[id]
    ensures result.Err? ==>
              exists id :: 0 <= id < |addresses| && IsMiss(addresses[id], replies(id), hash, result.error)
  {
    hide Filed, IsRecord, IsMiss, Obtained, Ascending, NoDup;
    var requests := ByPosition(addresses);
    var outcome := FetchOutcome(addresses, replies, hash);
    PositionsPermute(|requests|);
    var caps: nat -> nat := *;
    var aborted, got, missed, _, _ := RunRound(Positions(|requests|), outcome, 1, caps);
    if aborted.Some? {
      ghost var id :| id in Positions(|requests|) && outcome(id, 1) == Abort(aborted.value);
      FetchedAsReplied(addresses[id], replies(id), hash);
      MissIsNoRecord(addresses[id], replies(id), hash, aborted.value);
      return Err(aborted.value);
    }
    assert Filed(requests, outcome, [], []) by { Begin(requests, outcome); }
    var results := FileResults(requests, outcome, 1, got, [], []);
    assert [] + got == got;
    FirstRound(requests, outcome, got, results);
    SortAscends(results, (r: Record) => r.0);
    SortKeepsElements(results, (r: Record) => r.0);
    PositionsFiled(addresses, replies, hash, Sort(results, (r: Record) => r.0));
    AllRecords(addresses, replies, hash);
    result := Ok(Sort(results, (r: Record) => r.0));
  }

  // Resolving

  method Keep(addresses: seq<Address>, records: seq<Record>, cached: map<Address, Bytes>, ghost hash: Bytes -> Address)
    returns (cache: map<Address, Bytes>)
    requires Verified(cached, hash) && |records| == |addresses|
    requires forall id :: 0 <= id < |records| ==> records[id].0 == id && hash(records[id].1) == addresses[id]
    ensures Verified(cache, hash) && forall a :: a in cache <==> a in cached || a in addresses
  {
    cache := cached;
    for i := 0 to |records|
      invariant Verified(cache, hash) && forall a :: a in cache <==> a in cached || a in addresses[..i]
    {
      assert addresses[..i + 1] == addresses[..i] + [addresses[i]];
      cache := cache[addresses[records[i].0] := records[i].1];
    }
    assert addresses[..|addresses|] == addresses;
  }

  /** Every record of pass `k` could be fetched and verified. */
  ghost predicate PassGot<E>(list: seq<Address>, replies: (nat, nat) -> Result<Bytes, E>, hash: Bytes -> Address,
                             k: nat) {
    forall id: nat :: id < |list| ==> IsRecord(list[id], replies(k, id), hash)
  }

  /** A record of pass `k` could not, with `error`. */
  ghost predicate PassMissed<E>(list: seq<Address>, replies: (nat, nat) -> Result<Bytes, E>, hash: Bytes -> Address,
                            k: nat, error: ReadError<E>) {
    exists id: nat :: id < |list| && IsMiss(list[id], replies(k, id), hash, error)
  }

  ghost predicate AllGot<E>(lists: seq<seq<Address>>, replies: (nat, nat) -> Result<Bytes, E>,
                            hash: Bytes -> Address) {
    forall k: nat :: k < |lists| ==> PassGot(lists[k], replies, hash, k)
  }

  /** The passes before `k` got all their records and pass `k` missed one. */
  ghost predicate FailsAt<E>(lists: seq<seq<Address>>, replies: (nat, nat) -> Result<Bytes, E>,
                             hash: Bytes -> Address, k: nat, error: ReadError<E>)
    requires k < |lists|
  {
    AllGot(lists[..k], replies, hash) && PassMissed(lists[k], replies, hash, k, error)
  }

  lemma Fails<E>(lists: seq<seq<Address>>, list: seq<Address>, rest: seq<seq<Address>>,
                 replies: (nat, nat) -> Result<Bytes, E>, hash: Bytes -> Address, error: ReadError<E>)
    requires AllGot(lists, replies, hash) && PassMissed(list, replies, hash, |lists|, error)
    ensures FailsAt(lists + [list] + rest, replies, hash, |lists|, error)
    ensures !AllGot(lists + [list] + rest, replies, hash)
  {
    var all := lists + [list] + rest;
    var k: nat := |lists|;
    assert all[..k] == lists && all[k] == list;
    assert !PassGot(all[k], replies, hash, k);
  }

  /** Fetch the records of one pass into the cache. */
  method FetchPass<E>(addresses: seq<Address>, replies: (nat, nat) -> Result<Bytes, E>, hash: Bytes -> Address,
                      pass: nat, cached: map<Address, Bytes>)
    returns (cache: Result<map<Address, Bytes>, ReadError<E>>)
    requires Verified(cached, hash)
    ensures cache.Ok? <==> PassGot(addresses, replies, hash, pass)
    ensures cache.Ok? ==>
              Verified(cache.value, hash) && cache.value.Keys == cached.Keys + set a | a in addresses
    ensures cache.Err? ==> PassMissed(addresses, replies, hash, pass, cache.error)
  {
    hide Verified, IsRecord, IsMiss;
    var records := FetchRecords(addresses, (id: nat) => replies(pass, id), hash);
    if records.Err? {
      return Err(records.error);
    }
    var grown := Keep(addresses, records.value, cached, hash);
    cache := Ok(grown);
  }

  /** Replaying with a growing cache fetches the plan of the direct run, pass by
      pass. It gives what the direct run gives exactly when every record of the
      plan can be had, and otherwise the error of the first pass that misses one. */
  method ResolveMap<S(!new), M, E>(resolver: Resolver<S, M>, root: S, replies: (nat, nat) -> Result<Bytes, E>,
                                   hash: Bytes -> Address, ghost lookup: Address -> Bytes)
    returns (result: Result<M, ReadError<E>>, fetched: seq<seq<Address>>)
    requires Ends(resolver) && IsStore(lookup, hash)
    ensures var plan := Plan(resolver, root, lookup, {});
      && (result.Ok? <==> Direct(resolver, root, lookup).Some? && AllGot(plan, replies, hash))
      && (result.Ok? ==> Direct(resolver, root, lookup) == Some(result.value))
      && (result.Err? && AllGot(plan, replies, hash) ==> result.error == Invalid)
      && (AllGot(plan, replies, hash) ==> fetched == plan)
      && (!AllGot(plan, replies, hash) ==>
            && 0 < |fetched| && fetched <= plan && result.Err?
            && FailsAt(plan, replies, hash, |fetched| - 1, result.error))
    ensures Apart(fetched) && forall a :: Listed(fetched, a) ==> a in Asked(resolver, root, lookup)
    ensures result.Ok? ==> forall a :: a in Asked(resolver, root, lookup) ==> Listed(fetched, a)
  {
    hide Ends, IsStore, Verified, Direct, Asked, Plan, AllGot, FailsAt, PassGot, PassMissed, Apart, Listed, AddressesOf;
    var cache: map<Address, Bytes> := map[];
    ghost var plan := Plan(resolver, root, lookup, {});
    fetched := [];
    Initially(replies, hash);
    assert cache.Keys == {};
    while true
      invariant Verified(cache, hash) && AllGot(fetched, replies, hash)
      invariant fetched + Plan(resolver, root, lookup, cache.Keys) == plan
      decreases |Plan(resolver, root, lookup, cache.Keys)|
    {
      ghost var rest := Plan(resolver, root, lookup, cache.Keys);
      var replay := Replay(resolver, root, cache, lookup, hash);
      match replay {
        case Finished(found) =>
          assert fetched == plan;
          PlanPasses(resolver, root, lookup, fetched);
          return (if found.Some? then Ok(found.value) else Err(Invalid)), fetched;
        case Suspended(missing) =>
          var addresses := AddressList(missing);
          PassOf(resolver, root, lookup, plan, fetched, cache.Keys, addresses);
          var grown := FetchPass(addresses, replies, hash, |fetched|, cache);
          if grown.Err? {
            Fails(fetched, addresses, rest[1..], replies, hash, grown.error);
            fetched := fetched + [addresses];
            PlanPasses(resolver, root, lookup, fetched);
            return Err(grown.error), fetched;
          }
          GotGrows(fetched, addresses, replies, hash);
          cache, fetched := grown.value, fetched + [addresses];
      }
    }
  }

  lemma Initially<E>(replies: (nat, nat) -> Result<Bytes, E>, hash: Bytes -> Address)
    ensures Verified(map[], hash) && AllGot([], replies, hash)
  {
  }

  lemma PassOf<S(!new), M>(resolver: Resolver<S, M>, s: S, lookup: Address -> Bytes, plan: seq<seq<Address>>,
                           fetched: seq<seq<Address>>, cached: set<Address>, addresses: seq<Address>)
    requires Ends(resolver)
    requires var rest := Plan(resolver, s, lookup, cached); plan == fetched + rest && rest != [] && rest[0] == addresses
    ensures var rest := Plan(resolver, s, lookup, cached);
      && plan == fetched + [addresses] + rest[1..]
      && Plan(resolver, s, lookup, cached + set a | a in addresses) == rest[1..]
  {
    hide Ends, Plan;
    PlanGoesOn(resolver, s, lookup, cached, set a | a in addresses);
  }

  lemma GotGrows<E>(lists: seq<seq<Address>>, list: seq<Address>, replies: (nat, nat) -> Result<Bytes, E>,
                    hash: Bytes -> Address)
    requires AllGot(lists, replies, hash) && PassGot(list, replies, hash, |lists|)
    ensures AllGot(lists + [list], replies, hash)
  {
  }

  /** The first passes of a plan fetch nothing an earlier one fetched and only what
      the direct run asks for; all of them fetch all of it. */
  lemma PlanPasses<S(!new), M>(resolver: Resolver<S, M>, root: S, lookup: Address -> Bytes, lists: seq<seq<Address>>)
    requires Ends(resolver) && lists <= Plan(resolver, root, lookup, {})
    ensures Apart(lists) && forall a :: Listed(lists, a) ==> a in Asked(resolver, root, lookup)
    ensures lists == Plan(resolver, root, lookup, {}) ==>
              forall a :: a in Asked(resolver, root, lookup) ==> Listed(lists, a)
  {
    hide Ends, Plan, Asked;
    var plan := Plan(resolver, root, lookup, {});
    PlanApart(resolver, root, lookup, {});
    forall a ensures Listed(plan, a) <==> a in Asked(resolver, root, lookup) {
      PlanCovers(resolver, root, lookup, {}, a);
    }
    forall a | Listed(lists, a) ensures Listed(plan, a) {
      var k :| 0 <= k < |lists| && a in lists[k];
      assert a in plan[k];
    }
  }
}
