/** Deferred retry rounds of `client_engine/files.rs` and `client_engine.rs`:
    every missing record is tried together, again at once, and then after 15 and
    45 seconds. Requests complete in any order within a round, under a cap that
    may change at any time. */
module DeferredFetch {
  import opened Prelude
  import opened Sorting

  type Address = nat
  type Bytes = seq<nat>

  const ROUNDS: nat := 4

  /** Why a read fails: the adapter's error, or bytes that do not check out. */
  datatype ReadError<E> = Fetch(error: E) | Invalid

  /** A request by position; `index` is what its record is filed under. */
  datatype Request = Request(index: nat, address: Address)

  /** How one attempt at one request ends. */
  datatype Attempt<E> = Got(bytes: Bytes) | Miss(error: E) | Abort(failure: ReadError<E>)

  /** The outcome of attempt `round` at the request in position `id`. */
  type Outcomes<E> = (nat, nat) -> Attempt<E>

  ghost predicate MissedBefore<E>(outcome: Outcomes<E>, id: nat, round: nat) {
    forall q :: 1 <= q < round ==> outcome(id, q).Miss?
  }

  /** The request is obtained in this round, having missed in all before. */
  ghost predicate GotAt<E>(outcome: Outcomes<E>, id: nat, round: nat) {
    1 <= round <= ROUNDS && MissedBefore(outcome, id, round) && outcome(id, round).Got?
  }

  ghost predicate Obtained<E>(outcome: Outcomes<E>, id: nat) {
    exists round :: GotAt(outcome, id, round)
  }

  ghost predicate AbortsAt<E>(outcome: Outcomes<E>, id: nat, round: nat) {
    1 <= round <= ROUNDS && MissedBefore(outcome, id, round) && outcome(id, round).Abort?
  }

  ghost predicate Exhausted<E>(outcome: Outcomes<E>, id: nat) {
    MissedBefore(outcome, id, ROUNDS + 1)
  }

  /** A request is obtained, aborts or is exhausted, and only one of these. */
  lemma Fates<E>(outcome: Outcomes<E>, id: nat)
    ensures Obtained(outcome, id) || Exhausted(outcome, id) || exists round :: AbortsAt(outcome, id, round)
    ensures Obtained(outcome, id) ==> !Exhausted(outcome, id) && !exists round :: AbortsAt(outcome, id, round)
    ensures Exhausted(outcome, id) ==> !exists round :: AbortsAt(outcome, id, round)
  {
    if !outcome(id, 1).Miss? {
      assert GotAt(outcome, id, 1) || AbortsAt(outcome, id, 1);
    } else if !outcome(id, 2).Miss? {
      assert GotAt(outcome, id, 2) || AbortsAt(outcome, id, 2);
    } else if !outcome(id, 3).Miss? {
      assert GotAt(outcome, id, 3) || AbortsAt(outcome, id, 3);
    } else if !outcome(id, 4).Miss? {
      assert GotAt(outcome, id, 4) || AbortsAt(outcome, id, 4);
    }
    forall r: nat, q: nat | GotAt(outcome, id, r)
      ensures !AbortsAt(outcome, id, q)
    {
      assert r < q || q < r || r == q;
    }
  }

  // A rolling window over positions: every item is started, in order

  /** The items started so far are on the wire or done. */
  ghost predicate Window(input: seq<nat>, next: nat, inFlight: set<nat>, done: set<nat>) {
    && next <= |input|
    && (forall k :: 0 <= k < next ==> input[k] in inFlight || input[k] in done)
    && (forall id :: id in inFlight ==> id !in done && exists k :: 0 <= k < next && input[k] == id)
    && (forall id :: id in done ==> exists k :: 0 <= k < next && input[k] == id)
  }

  lemma StartKeeps(input: seq<nat>, next: nat, inFlight: set<nat>, done: set<nat>)
    requires NoDup(input) && Window(input, next, inFlight, done) && next < |input|
    ensures Window(input, next + 1, inFlight + {input[next]}, done) && input[next] !in inFlight
  {
  }

  lemma FinishKeeps(input: seq<nat>, next: nat, inFlight: set<nat>, done: set<nat>, id: nat)
    requires Window(input, next, inFlight, done) && id in inFlight
    ensures Window(input, next, inFlight - {id}, done + {id}) && id !in done && id in input
  {
  }

  lemma RoundComplete<E>(input: seq<nat>, outcome: Outcomes<E>, round: nat, done: set<nat>, got: seq<nat>,
                         missed: seq<nat>, next: nat, inFlight: set<nat>)
    requires Window(input, next, inFlight, done) && Handled(outcome, round, done, got, missed)
    ensures NoDup(got) && NoDup(missed) && next <= |input|
    ensures forall id :: id in got ==> id in input && outcome(id, round).Got?
    ensures forall id :: id in missed ==> id in input && outcome(id, round).Miss?
    ensures next == |input| && inFlight == {} ==> forall id :: id in input ==> id in got || id in missed
  {
  }

  /** How many operations run while the next completion is waited for, when `flying`
      run and `left` items are still to start: up to the cap, and one at least. */
  function Filled(flying: nat, left: nat, cap: nat): nat {
    if cap <= flying then Max(flying, Min(1, left)) else Min(cap, flying + left)
  }

  /** Start items in order while fewer than the cap, but at least one, are in
      flight. */
  method Fill(input: seq<nat>, from: nat, flying: set<nat>, ghost done: set<nat>, cap: nat)
    returns (next: nat, inFlight: set<nat>)
    requires NoDup(input) && Window(input, from, flying, done)
    ensures Window(input, next, inFlight, done)
    ensures from <= next <= |input| && |inFlight| == |flying| + (next - from)
    ensures |inFlight| == Filled(|flying|, |input| - from, cap)
  {
    next, inFlight := from, flying;
    while next < |input| && |inFlight| < if cap < 1 then 1 else cap
      invariant Window(input, next, inFlight, done) && from <= next
      invariant |inFlight| == |flying| + (next - from) && (from < next ==> |inFlight| <= cap || |inFlight| == 1)
    {
      StartKeeps(input, next, inFlight, done);
      inFlight := inFlight + {input[next]};
      next := next + 1;
    }
  }

  /** How many operations ran at each wait of a round of `n` items, when the cap was
      read anew before each: one completes, and the window is filled again. */
  ghost predicate Rolls(flown: seq<nat>, n: nat, caps: nat -> nat) {
    |flown| <= n && forall k :: 0 <= k < |flown| ==> flown[k] == FilledAt(flown, n, caps, k)
  }

  ghost function FilledAt(flown: seq<nat>, n: nat, caps: nat -> nat, k: nat): nat
    requires k <= |flown| <= n
  {
    var flying := if k == 0 || flown[k - 1] == 0 then 0 else flown[k - 1] - 1;
    Filled(flying, if k + flying <= n then n - k - flying else 0, caps(k))
  }

  lemma RollsOn(flown: seq<nat>, n: nat, caps: nat -> nat, flying: nat)
    requires Rolls(flown, n, caps) && |flown| + flying < n + 1 && |flown| < n
    requires flying == if flown == [] || flown[|flown| - 1] == 0 then 0 else flown[|flown| - 1] - 1
    ensures Rolls(flown + [Filled(flying, n - |flown| - flying, caps(|flown|))], n, caps)
  {
    var all := flown + [Filled(flying, n - |flown| - flying, caps(|flown|))];
    forall k | 0 <= k < |all| ensures all[k] == FilledAt(all, n, caps, k) {
      if k < |flown| { assert flown[k] == FilledAt(flown, n, caps, k); }
    }
  }

  /** What a round has handled: each position once, filed by its outcome. */
  ghost predicate Handled<E>(outcome: Outcomes<E>, round: nat, done: set<nat>, got: seq<nat>, missed: seq<nat>) {
    && NoDup(got) && NoDup(missed)
    && (forall id :: id in got ==> id in done && outcome(id, round).Got?)
    && (forall id :: id in missed ==> id in done && outcome(id, round).Miss?)
    && (forall id :: id in done ==> id in got || id in missed)
  }

  lemma HandleKeeps<E>(outcome: Outcomes<E>, round: nat, done: set<nat>, got: seq<nat>, missed: seq<nat>, id: nat)
    requires Handled(outcome, round, done, got, missed) && id !in done && !outcome(id, round).Abort?
    ensures outcome(id, round).Got? ==> Handled(outcome, round, done + {id}, got + [id], missed)
    ensures outcome(id, round).Miss? ==> Handled(outcome, round, done + {id}, got, missed + [id])
  {
  }

  lemma RoundBegins<E>(input: seq<nat>, outcome: Outcomes<E>, round: nat)
    ensures Window(input, 0, {}, {}) && Handled(outcome, round, {}, [], [])
  {
  }

  /** One round over `input`, completions in any order, under a cap read before each
      wait. It ends early only when an attempt aborts the read. */
  method RunRound<E>(input: seq<nat>, outcome: Outcomes<E>, round: nat, caps: nat -> nat)
    returns (aborted: Option<ReadError<E>>, got: seq<nat>, missed: seq<nat>, started: nat, flown: seq<nat>)
    requires NoDup(input)
    ensures started <= |input| && (aborted.None? ==> started == |input|)
    ensures NoDup(got) && NoDup(missed)
    ensures forall id :: id in got ==> id in input && outcome(id, round).Got?
    ensures forall id :: id in missed ==> id in input && outcome(id, round).Miss?
    ensures aborted.None? ==> forall id :: id in input ==> id in got || id in missed
    ensures aborted.Some? ==> exists id :: id in input && outcome(id, round) == Abort(aborted.value)
    ensures Rolls(flown, |input|, caps) && (aborted.None? ==> |flown| == |input|)
  {
    hide Window, Handled, NoDup, Rolls, Filled;
    started := 0;
    var inFlight := {};
    ghost var done: set<nat> := {};
    got, missed, flown := [], [], [];
    RoundBegins(input, outcome, round);
    assert Rolls(flown, |input|, caps) by { NothingRolls(|input|, caps); }
    while started < |input| || inFlight != {}
      invariant Window(input, started, inFlight, done) && Handled(outcome, round, done, got, missed)
      invariant started <= |input| && started == |flown| + |inFlight| && Rolls(flown, |input|, caps)
      invariant |inFlight| == if flown == [] || flown[|flown| - 1] == 0 then 0 else flown[|flown| - 1] - 1
      decreases |input| - |flown|
    {
      var cap := caps(|flown|);
      RollsOn(flown, |input|, caps, |inFlight|);
      FillsSome(|inFlight|, |input| - started, cap);
      started, inFlight := Fill(input, started, inFlight, done, cap);
      RoundComplete(input, outcome, round, done, got, missed, started, inFlight);
      flown := flown + [|inFlight|];
      var id :| id in inFlight;
      FinishKeeps(input, started, inFlight, done, id);
      match outcome(id, round) {
        case Abort(failure) => return Some(failure), got, missed, started, flown;
        case _ =>
      }
      HandleKeeps(outcome, round, done, got, missed, id);
      inFlight := inFlight - {id};
      done := done + {id};
      if outcome(id, round).Got? { got := got + [id]; } else { missed := missed + [id]; }
    }
    RoundComplete(input, outcome, round, done, got, missed, started, inFlight);
    aborted := None;
  }

  lemma NothingRolls(n: nat, caps: nat -> nat)
    ensures Rolls([], n, caps)
  {
  }

  /** A wait is never for nothing. */
  lemma FillsSome(flying: nat, left: nat, cap: nat)
    requires flying + left > 0
    ensures 1 <= Filled(flying, left, cap) <= flying + left
  {
  }

  // The rounds

  type Record = (nat, Bytes)

  /** What an obtained request yields: the bytes of its first hit. */
  ghost function BytesOf<E>(outcome: Outcomes<E>, id: nat): Bytes
    requires Obtained(outcome, id)
  {
    var round :| GotAt(outcome, id, round);
    outcome(id, round).bytes
  }

  lemma BytesUnique<E>(outcome: Outcomes<E>, id: nat, round: nat)
    requires GotAt(outcome, id, round)
    ensures Obtained(outcome, id) && BytesOf(outcome, id) == outcome(id, round).bytes
  {
    forall q: nat | GotAt(outcome, id, q)
      ensures q == round
    {
      assert q < round || round < q || q == round;
    }
  }

  /** Results filed so far, in the order the requests came back. */
  ghost predicate Filed<E>(requests: seq<Request>, outcome: Outcomes<E>, delivered: seq<nat>, results: seq<Record>) {
    && |results| == |delivered|
    && forall k :: 0 <= k < |delivered| ==>
         && delivered[k] < |requests| && Obtained(outcome, delivered[k])
         && results[k] == (requests[delivered[k]].index, BytesOf(outcome, delivered[k]))
  }

  /** After the rounds before `round`: every request is delivered, or still
      missing after a miss in each of them. */
  ghost predicate Settled<E>(requests: seq<Request>, outcome: Outcomes<E>, round: nat, remaining: seq<nat>,
                             delivered: seq<nat>) {
    && NoDup(remaining) && NoDup(delivered)
    && (forall id :: id in remaining ==> id < |requests| && MissedBefore(outcome, id, round) && id !in delivered)
    && (forall id :: 0 <= id < |requests| ==> id in remaining || id in delivered)
  }

  /** Every request still missing has an error kept for its address, from the
      latest round. */
  ghost predicate ErrorsKept<E>(requests: seq<Request>, outcome: Outcomes<E>, round: nat, remaining: seq<nat>,
                                errors: map<Address, E>) {
    forall id :: id in remaining && id < |requests| ==>
      requests[id].address in errors
        && IsMissOf(requests, outcome, round, requests[id].address, errors[requests[id].address])
  }

  ghost predicate IsMissOf<E>(requests: seq<Request>, outcome: Outcomes<E>, round: nat, a: Address, error: E) {
    exists id: nat :: id < |requests| && requests[id].address == a && outcome(id, round) == Miss(error)
  }

  method KeepErrors<E>(requests: seq<Request>, outcome: Outcomes<E>, round: nat, missed: seq<nat>,
                       kept: map<Address, E>)
    returns (errors: map<Address, E>)
    requires forall id :: id in missed ==> id < |requests| && outcome(id, round).Miss?
    ensures ErrorsKept(requests, outcome, round, missed, errors)
  {
    errors := kept;
    for i := 0 to |missed|
      invariant ErrorsKept(requests, outcome, round, missed[..i], errors)
    {
      var id := missed[i];
      assert id in missed && missed[..i + 1] == missed[..i] + [id];
      assert IsMissOf(requests, outcome, round, requests[id].address, outcome(id, round).error);
      errors := errors[requests[id].address := outcome(id, round).error];
    }
    assert missed[..|missed|] == missed;
  }

  method FileResults<E>(requests: seq<Request>, outcome: Outcomes<E>, round: nat, got: seq<nat>,
                        ghost delivered: seq<nat>, filed: seq<Record>)
    returns (results: seq<Record>)
    requires forall id :: id in got ==> id < |requests| && GotAt(outcome, id, round)
    requires Filed(requests, outcome, delivered, filed)
    ensures Filed(requests, outcome, delivered + got, results)
  {
    results := filed;
    for i := 0 to |got|
      invariant Filed(requests, outcome, delivered + got[..i], results)
    {
      var id := got[i];
      assert id in got;
      BytesUnique(outcome, id, round);
      assert delivered + got[..i + 1] == delivered + got[..i] + [id];
      results := results + [(requests[id].index, outcome(id, round).bytes)];
    }
    assert got[..|got|] == got;
  }

  /** Every fetch made: at most one a round and request, only while it misses. */
  ghost predicate AttemptsOk<E>(requests: seq<Request>, outcome: Outcomes<E>, attempts: seq<(nat, nat)>) {
    && NoDup(attempts)
    && forall a :: a in attempts ==>
         a.0 < |requests| && 1 <= a.1 <= ROUNDS && MissedBefore(outcome, a.0, a.1)
  }

  function Attempted(input: seq<nat>, round: nat): (r: seq<(nat, nat)>)
    ensures |r| == |input| && forall k :: 0 <= k < |r| ==> r[k] == (input[k], round)
  {
    seq(|input|, k requires 0 <= k < |input| => (input[k], round))
  }

  lemma AttemptsKeep<E>(requests: seq<Request>, outcome: Outcomes<E>, attempts: seq<(nat, nat)>,
                        remaining: seq<nat>, started: nat, round: nat)
    requires AttemptsOk(requests, outcome, attempts) && NoDup(remaining)
    requires 1 <= round <= ROUNDS && started <= |remaining|
    requires forall a :: a in attempts ==> a.1 < round
    requires forall id :: id in remaining ==> id < |requests| && MissedBefore(outcome, id, round)
    ensures AttemptsOk(requests, outcome, attempts + Attempted(remaining[..started], round))
    ensures forall a :: a in attempts + Attempted(remaining[..started], round) ==> a.1 < round + 1
  {
    var added := Attempted(remaining[..started], round);
    forall a | a in added
      ensures a.0 < |requests| && a.1 == round && MissedBefore(outcome, a.0, a.1)
    {
      var k :| 0 <= k < |added| && added[k] == a;
      assert remaining[k] in remaining;
    }
    forall i, j | 0 <= i < j < |attempts + added|
      ensures (attempts + added)[i] != (attempts + added)[j]
    {
      if i < |attempts| <= j {
        assert attempts[i] in attempts && added[j - |attempts|] in added;
      }
    }
  }

  lemma RoundSettles<E>(requests: seq<Request>, outcome: Outcomes<E>, round: nat, remaining: seq<nat>,
                        delivered: seq<nat>, got: seq<nat>, missed: seq<nat>)
    requires Settled(requests, outcome, round, remaining, delivered) && 1 <= round <= ROUNDS
    requires NoDup(got) && NoDup(missed)
    requires forall id :: id in got ==> id in remaining && outcome(id, round).Got?
    requires forall id :: id in missed ==> id in remaining && outcome(id, round).Miss?
    requires forall id :: id in remaining ==> id in got || id in missed
    ensures Settled(requests, outcome, round + 1, missed, delivered + got)
    ensures forall id :: id in got ==> id < |requests| && GotAt(outcome, id, round)
  {
    forall i, j | 0 <= i < j < |delivered + got|
      ensures (delivered + got)[i] != (delivered + got)[j]
    {
      if i < |delivered| <= j {
        assert delivered[i] in delivered && got[j - |delivered|] in got;
      }
    }
    forall id | id in missed
      ensures MissedBefore(outcome, id, round + 1)
    {
    }
  }

  /** The read fails with the error of an attempt that aborted it, or with the
      last miss kept for the address of a request that missed in every round. */
  ghost predicate FailsFor<E>(requests: seq<Request>, outcome: Outcomes<E>, error: ReadError<E>) {
    || (exists id: nat, round: nat ::
          id < |requests| && AbortsAt(outcome, id, round) && outcome(id, round) == Abort(error))
    || (exists id: nat :: id < |requests| && Exhausted(outcome, id) && error.Fetch?
                          && IsMissOf(requests, outcome, ROUNDS, requests[id].address, error.error))
  }

  lemma AbortFails<E>(requests: seq<Request>, outcome: Outcomes<E>, round: nat, remaining: seq<nat>,
                      delivered: seq<nat>, failure: ReadError<E>)
    requires Settled(requests, outcome, round, remaining, delivered) && 1 <= round <= ROUNDS
    requires exists id :: id in remaining && outcome(id, round) == Abort(failure)
    ensures FailsFor(requests, outcome, failure)
    ensures exists id: nat :: id < |requests| && !Obtained(outcome, id)
  {
    var id :| id in remaining && outcome(id, round) == Abort(failure);
    assert AbortsAt(outcome, id, round);
    Fates(outcome, id);
  }

  lemma ExhaustionFails<E>(requests: seq<Request>, outcome: Outcomes<E>, remaining: seq<nat>, delivered: seq<nat>,
                           errors: map<Address, E>)
    requires Settled(requests, outcome, ROUNDS + 1, remaining, delivered) && remaining != []
    requires ErrorsKept(requests, outcome, ROUNDS, remaining, errors)
    ensures remaining[0] < |requests| && requests[remaining[0]].address in errors
    ensures FailsFor(requests, outcome, Fetch(errors[requests[remaining[0]].address]))
    ensures exists id: nat :: id < |requests| && !Obtained(outcome, id)
  {
    var id := remaining[0];
    assert id in remaining && Exhausted(outcome, id);
    Fates(outcome, id);
  }

  /** Every record once, in request order. */
  ghost function Expected<E>(requests: seq<Request>, outcome: Outcomes<E>): (r: seq<Record>)
    requires forall id: nat :: id < |requests| ==> Obtained(outcome, id)
    ensures |r| == |requests|
    ensures forall id :: 0 <= id < |r| ==> r[id] == (requests[id].index, BytesOf(outcome, id))
  {
    seq(|requests|, id requires 0 <= id < |requests| => (requests[id].index, BytesOf(outcome, id)))
  }

  function Without<T>(s: seq<T>, k: nat): seq<T>
    requires k < |s|
    ensures |Without(s, k)| == |s| - 1
  {
    s[..k] + s[k + 1..]
  }

  lemma WithoutMultiset<T>(s: seq<T>, k: nat)
    requires k < |s|
    ensures multiset(s) == multiset(Without(s, k)) + multiset{s[k]}
  {
    assert s == s[..k] + [s[k]] + s[k + 1..];
  }

  lemma WithoutSame<T>(s: seq<T>, i: nat, t: seq<T>, k: nat)
    requires i < |s| && k < |t| && s[i] == t[k] && multiset(s) == multiset(t)
    ensures multiset(Without(s, i)) == multiset(Without(t, k))
  {
    hide Without;
    WithoutMultiset(s, i);
    WithoutMultiset(t, k);
    assert multiset(Without(s, i)) == multiset(s) - multiset{s[i]};
    assert multiset(Without(t, k)) == multiset(t) - multiset{t[k]};
  }

  lemma FiledWithout<E>(requests: seq<Request>, outcome: Outcomes<E>, delivered: seq<nat>, results: seq<Record>, k: nat)
    requires Filed(requests, outcome, delivered, results) && k < |delivered|
    ensures Filed(requests, outcome, Without(delivered, k), Without(results, k))
  {
  }

  /** Deliveries in another order file the same records. */
  lemma {:induction false} FiledPermutes<E>(requests: seq<Request>, outcome: Outcomes<E>,
                                            da: seq<nat>, a: seq<Record>, db: seq<nat>, b: seq<Record>)
    requires Filed(requests, outcome, da, a) && Filed(requests, outcome, db, b)
    requires multiset(da) == multiset(db)
    ensures multiset(a) == multiset(b)
    decreases |da|
  {
    SameElements(da, db);
    hide Without;
    if da != [] {
      assert da[0] in da;
      var k :| 0 <= k < |db| && db[k] == da[0];
      assert a[0] == b[k];
      FiledWithout(requests, outcome, da, a, 0);
      FiledWithout(requests, outcome, db, b, k);
      hide Filed;
      WithoutSame(da, 0, db, k);
      FiledPermutes(requests, outcome, Without(da, 0), Without(a, 0), Without(db, k), Without(b, k));
      WithoutMultiset(a, 0);
      WithoutMultiset(b, k);
    } else {
      assert a == [] && b == [];
    }
  }

  lemma AllFiled<E>(requests: seq<Request>, outcome: Outcomes<E>, round: nat, delivered: seq<nat>, results: seq<Record>)
    requires Settled(requests, outcome, round, [], delivered) && Filed(requests, outcome, delivered, results)
    ensures forall id: nat :: id < |requests| ==> Obtained(outcome, id)
    ensures Permutes(delivered, |requests|)
    ensures multiset(results) == multiset(Expected(requests, outcome))
  {
    forall id: nat | id < |requests|
      ensures Obtained(outcome, id)
    {
      assert id in delivered;
    }
    var all := Positions(|requests|);
    PositionsPermute(|requests|);
    forall id | id in delivered
      ensures id < |requests|
    {
      var k :| 0 <= k < |delivered| && delivered[k] == id;
    }
    NoDupPermutation(delivered, all);
    FiledPermutes(requests, outcome, delivered, results, all, Expected(requests, outcome));
  }

  lemma PositionsPermute(n: nat)
    ensures Permutes(Positions(n), n)
  {
    var all := Positions(n);
    forall id | 0 <= id < n
      ensures id in all
    {
      assert all[id] == id;
    }
  }

  /** Each position below `n` once. */
  predicate Permutes(s: seq<nat>, n: nat) {
    NoDup(s) && (forall id :: 0 <= id < n ==> id in s) && forall id :: id in s ==> id < n
  }

  /** Fetch all requests in deferred retry rounds. It succeeds exactly when every
      request is obtained within four attempts, and then returns every record
      once, in index order, having delivered each once. No request is fetched
      twice in a round, more than four times, or again once obtained. */
  method DeferredBatch<E>(requests: seq<Request>, outcome: Outcomes<E>)
    returns (result: Result<seq<Record>, ReadError<E>>, delivered: seq<nat>, results: seq<Record>,
             attempts: seq<(nat, nat)>)
    ensures result.Ok? <==> forall id: nat :: id < |requests| ==> Obtained(outcome, id)
    ensures result.Ok? ==> multiset(result.value) == multiset(Expected(requests, outcome))
                           && Ascending(result.value, (r: Record) => r.0)
    ensures result.Ok? ==> Permutes(delivered, |requests|)
    ensures Filed(requests, outcome, delivered, results)
    ensures result.Err? ==> FailsFor(requests, outcome, result.error)
    ensures AttemptsOk(requests, outcome, attempts)
  {
    hide Settled, Filed, ErrorsKept, AttemptsOk, FailsFor, Obtained, Permutes, MissedBefore, NoDup, Ascending;
    var remaining := Positions(|requests|);
    results := [];
    var errors: map<Address, E> := map[];
    var round := 1;
    delivered, attempts := [], [];
    Begin(requests, outcome);
    while round <= ROUNDS && remaining != []
      invariant 1 <= round <= ROUNDS + 1
      invariant Settled(requests, outcome, round, remaining, delivered) && Filed(requests, outcome, delivered, results)
      invariant round == 1 || ErrorsKept(requests, outcome, round - 1, remaining, errors)
      invariant AttemptsOk(requests, outcome, attempts) && forall a :: a in attempts ==> a.1 < round
    {
      SettledShape(requests, outcome, round, remaining, delivered);
      var caps: nat -> nat := *;
      var aborted, got, missed, started, _ := RunRound(remaining, outcome, round, caps);
      AttemptsKeep(requests, outcome, attempts, remaining, started, round);
      attempts := attempts + Attempted(remaining[..started], round);
      if aborted.Some? {
        AbortFails(requests, outcome, round, remaining, delivered, aborted.value);
        return Err(aborted.value), delivered, results, attempts;
      }
      RoundSettles(requests, outcome, round, remaining, delivered, got, missed);
      errors := KeepErrors(requests, outcome, round, missed, errors);
      results := FileResults(requests, outcome, round, got, delivered, results);
      remaining, delivered, round := missed, delivered + got, round + 1;
    }
    if remaining != [] {
      ExhaustionFails(requests, outcome, remaining, delivered, errors);
      return Err(Fetch(errors[requests[remaining[0]].address])), delivered, results, attempts;
    }
    AllFiled(requests, outcome, round, delivered, results);
    SortAscends(results, (r: Record) => r.0);
    SortKeepsElements(results, (r: Record) => r.0);
    result := Ok(Sort(results, (r: Record) => r.0));
  }

  lemma Begin<E>(requests: seq<Request>, outcome: Outcomes<E>)
    ensures Settled(requests, outcome, 1, Positions(|requests|), [])
    ensures Filed(requests, outcome, [], []) && AttemptsOk(requests, outcome, [])
  {
    PositionsPermute(|requests|);
  }

  lemma SettledShape<E>(requests: seq<Request>, outcome: Outcomes<E>, round: nat, remaining: seq<nat>,
                        delivered: seq<nat>)
    requires Settled(requests, outcome, round, remaining, delivered)
    ensures NoDup(remaining)
    ensures forall id :: id in remaining ==> id < |requests| && MissedBefore(outcome, id, round)
  {
  }

  /** Records asked for in ascending index order come back in request order. */
  lemma ExpectedInOrder<E>(requests: seq<Request>, outcome: Outcomes<E>, result: seq<Record>)
    requires forall id: nat :: id < |requests| ==> Obtained(outcome, id)
    requires Strict(requests, (q: Request) => q.index)
    requires multiset(result) == multiset(Expected(requests, outcome)) && Ascending(result, (r: Record) => r.0)
    ensures result == Expected(requests, outcome)
  {
    var want := Expected(requests, outcome);
    var key := (r: Record) => r.0;
    assert Strict(want, key) by {
      forall i, j | 0 <= i < j < |want|
        ensures key(want[i]) < key(want[j])
      {
        assert ((q: Request) => q.index)(requests[i]) < ((q: Request) => q.index)(requests[j]);
      }
    }
    SameElements(want, result);
    PermutationNoDup(want, result);
    forall i, j | 0 <= i < j < |result|
      ensures key(result[i]) < key(result[j])
    {
      assert key(result[i]) <= key(result[j]);
      assert result[i] in want && result[j] in want;
    }
    StrictUnique(result, want, key);
  }
}
