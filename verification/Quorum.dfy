/** Delivery to a quorum of an ordered target list, `client_engine.rs`: the first
    targets run together and each failure brings in the next as a fallback. */
module Quorum {
  import opened Prelude
  import opened Sorting

  /** Whether the operation on a target succeeds, by its position. */
  type Results<E> = nat -> Option<E>

  datatype Event<E> = Launch(target: nat) | Success(target: nat) | Failure(target: nat, error: E)

  datatype Outcome<E> = Outcome(successful: seq<nat>, failures: seq<(nat, E)>, reached: bool)

  /** The targets launched, in order. */
  function Launched<E>(trace: seq<Event<E>>): seq<nat> {
    if trace == [] then []
    else
      var rest := Launched(trace[..|trace| - 1]);
      var last := trace[|trace| - 1];
      if last.Launch? then rest + [last.target] else rest
  }

  function Failed<E>(trace: seq<Event<E>>): nat {
    if trace == [] then 0
    else Failed(trace[..|trace| - 1]) + if trace[|trace| - 1].Failure? then 1 else 0
  }

  predicate Counts(s: seq<nat>) {
    forall i :: 0 <= i < |s| ==> s[i] == i
  }

  /** At each point of the run the targets launched are a prefix of the list, no
      more than `required` and one for each failure so far. */
  ghost predicate Thrifty<E>(trace: seq<Event<E>>, required: nat) {
    forall k :: 0 <= k <= |trace| ==> ThriftyAt(trace[..k], required)
  }

  ghost predicate ThriftyAt<E>(trace: seq<Event<E>>, required: nat) {
    Counts(Launched(trace)) && |Launched(trace)| <= required + Failed(trace)
  }

  /** An operation completes only when the first `required` targets and one more for
      each failure so far have been launched, as far as there are targets. */
  ghost predicate Prompt<E>(trace: seq<Event<E>>, targets: nat, required: nat) {
    forall k :: 0 <= k < |trace| && !trace[k].Launch? ==> AllLaunched(trace[..k], targets, required)
  }

  ghost predicate AllLaunched<E>(trace: seq<Event<E>>, targets: nat, required: nat) {
    |Launched(trace)| == Min(targets, required + Failed(trace))
  }

  lemma PromptStep<E>(trace: seq<Event<E>>, targets: nat, required: nat, e: Event<E>)
    requires Prompt(trace, targets, required) && (!e.Launch? ==> AllLaunched(trace, targets, required))
    ensures Prompt(trace + [e], targets, required)
  {
    hide AllLaunched;
    var all := trace + [e];
    forall k | 0 <= k < |all| && !all[k].Launch?
      ensures AllLaunched(all[..k], targets, required)
    {
      if k < |trace| { assert all[..k] == trace[..k] && all[k] == trace[k]; } else { assert all[..k] == trace; }
    }
  }

  lemma ThriftyStep<E>(trace: seq<Event<E>>, required: nat, e: Event<E>)
    requires Thrifty(trace, required)
    requires e.Launch? ==> e.target == |Launched(trace)| && |Launched(trace)| < required + Failed(trace)
    ensures Thrifty(trace + [e], required)
    ensures |Launched(trace + [e])| == |Launched(trace)| + if e.Launch? then 1 else 0
    ensures Failed(trace + [e]) == Failed(trace) + if e.Failure? then 1 else 0
  {
    var all := trace + [e];
    assert all[..|trace|] == trace && trace[..|trace|] == trace && all[..|all|] == all;
    assert ThriftyAt(trace[..|trace|], required);
    forall k | 0 <= k <= |all|
      ensures ThriftyAt(all[..k], required)
    {
      if k <= |trace| {
        assert all[..k] == trace[..k];
      }
    }
  }

  /** A run's bookkeeping: every launched target is in flight or in one list. */
  datatype Run<E> = Run(next: nat, inFlight: set<nat>, successful: seq<nat>, failures: seq<(nat, E)>,
                        trace: seq<Event<E>>)

  predicate IsSuccess<E>(result: Results<E>, t: nat) { result(t).None? }

  ghost predicate Listed<E>(result: Results<E>, r: Run<E>) {
    && (forall t :: t in r.inFlight ==> t < r.next)
    && (forall i :: 0 <= i < |r.successful| ==>
          r.successful[i] < r.next && r.successful[i] !in r.inFlight && IsSuccess(result, r.successful[i]))
    && (forall i :: 0 <= i < |r.failures| ==> r.failures[i].0 < r.next && r.failures[i].0 !in r.inFlight
                                              && result(r.failures[i].0) == Some(r.failures[i].1))
    && NoDup(r.successful)
    && (forall i, j :: 0 <= i < j < |r.failures| ==> r.failures[i].0 != r.failures[j].0)
    && (forall t :: 0 <= t < r.next && t !in r.inFlight && IsSuccess(result, t) ==> t in r.successful)
    && r.next == |r.inFlight| + |r.successful| + |r.failures|
  }

  ghost predicate Traced<E>(r: Run<E>, required: nat) {
    Thrifty(r.trace, required) && |Launched(r.trace)| == r.next && Failed(r.trace) == |r.failures|
  }

  lemma RunPrompt<E>(r: Run<E>, targets: nat, required: nat, e: Event<E>)
    requires Traced(r, required) && Prompt(r.trace, targets, required)
    requires e.Launch? || r.next == Min(targets, required + |r.failures|)
    ensures Prompt(r.trace + [e], targets, required)
  {
    hide Thrifty, Prompt;
    PromptStep(r.trace, targets, required, e);
  }

  lemma LaunchKeeps<E>(result: Results<E>, required: nat, r: Run<E>)
    requires Listed(result, r) && Traced(r, required) && r.next < required + |r.failures|
    ensures var after := r.(next := r.next + 1, inFlight := r.inFlight + {r.next}, trace := r.trace + [Launch(r.next)]);
      && Listed(result, after) && Traced(after, required)
      && after.next == |after.inFlight| + |after.successful| + |after.failures|
  {
    ThriftyStep(r.trace, required, Launch(r.next));
  }

  lemma SuccessKeeps<E>(result: Results<E>, required: nat, r: Run<E>, t: nat)
    requires Listed(result, r) && Traced(r, required) && t in r.inFlight && IsSuccess(result, t)
    ensures var after := r.(inFlight := r.inFlight - {t}, successful := r.successful + [t],
                            trace := r.trace + [Success(t)]);
      && Listed(result, after) && Traced(after, required)
      && after.next == |after.inFlight| + |after.successful| + |after.failures|
  {
    ThriftyStep(r.trace, required, Success(t));
  }

  lemma FailureKeeps<E>(result: Results<E>, required: nat, r: Run<E>, t: nat)
    requires Listed(result, r) && Traced(r, required) && t in r.inFlight && !IsSuccess(result, t)
    ensures var after := r.(inFlight := r.inFlight - {t}, failures := r.failures + [(t, result(t).value)],
                            trace := r.trace + [Failure(t, result(t).value)]);
      && Listed(result, after) && Traced(after, required)
      && after.next == |after.inFlight| + |after.successful| + |after.failures|
  {
    ThriftyStep(r.trace, required, Failure(t, result(t).value));
  }

  ghost function Successes<E>(result: Results<E>, n: nat): set<nat> {
    set t | 0 <= t < n && IsSuccess(result, t)
  }

  method LaunchFirst<E>(targets: nat, required: nat, result: Results<E>) returns (r: Run<E>)
    ensures Listed(result, r) && Traced(r, required) && r.successful == [] && r.failures == []
    ensures r.next == Min(targets, required) == |r.inFlight| && Prompt(r.trace, targets, required)
  {
    hide Traced, Thrifty, Listed, Prompt;
    r := Run(0, {}, [], [], []);
    Start(result, targets, required);
    while r.next < targets && r.next < required
      invariant r.next <= targets && r.next <= required && r.successful == [] && r.failures == []
      invariant Listed(result, r) && Traced(r, required) && r.next == |r.inFlight| && Prompt(r.trace, targets, required)
    {
      RunPrompt(r, targets, required, Launch(r.next));
      LaunchKeeps(result, required, r);
      r := r.(next := r.next + 1, inFlight := r.inFlight + {r.next}, trace := r.trace + [Launch(r.next)]);
    }
  }

  /** One operation completes; a failure brings in the next target. */
  method CompleteOne<E>(targets: nat, required: nat, result: Results<E>, before: Run<E>) returns (r: Run<E>)
    requires Listed(result, before) && Traced(before, required) && before.inFlight != {}
    requires Prompt(before.trace, targets, required)
    requires before.next == Min(targets, required + |before.failures|)
    requires before.next == |before.inFlight| + |before.successful| + |before.failures|
    ensures Listed(result, r) && Traced(r, required) && Prompt(r.trace, targets, required)
    ensures r.next == Min(targets, required + |r.failures|)
    ensures r.next == |r.inFlight| + |r.successful| + |r.failures|
    ensures |r.successful| + |r.failures| == |before.successful| + |before.failures| + 1
    ensures |before.successful| <= |r.successful|
  {
    hide Traced, Thrifty, Listed, Prompt;
    r := before;
    var t :| t in r.inFlight;
    if result(t).None? {
      SuccessKeeps(result, required, r, t);
      RunPrompt(r, targets, required, Success(t));
      r := r.(inFlight := r.inFlight - {t}, successful := r.successful + [t], trace := r.trace + [Success(t)]);
    } else {
      FailureKeeps(result, required, r, t);
      RunPrompt(r, targets, required, Failure(t, result(t).value));
      r := r.(inFlight := r.inFlight - {t}, failures := r.failures + [(t, result(t).value)],
              trace := r.trace + [Failure(t, result(t).value)]);
      if r.next < targets {
        LaunchKeeps(result, required, r);
        RunPrompt(r, targets, required, Launch(r.next));
        r := r.(next := r.next + 1, inFlight := r.inFlight + {r.next}, trace := r.trace + [Launch(r.next)]);
      }
    }
  }

  /** Quorum is reached exactly when enough targets succeed, in whatever order the
      operations complete. */
  method QuorumWithFallback<E>(targets: nat, required: nat, result: Results<E>)
    returns (outcome: Outcome<E>, trace: seq<Event<E>>)
    ensures outcome.reached <==> required <= |Successes(result, targets)|
    ensures outcome.reached ==> |outcome.successful| == required
    ensures NoDup(outcome.successful) && forall t :: t in outcome.successful ==> t in Successes(result, targets)
    ensures !outcome.reached ==> |outcome.failures| == targets - |outcome.successful|
                                 && forall t :: t in Successes(result, targets) ==> t in outcome.successful
    ensures forall i :: 0 <= i < |outcome.failures| ==>
              outcome.failures[i].0 < targets && result(outcome.failures[i].0) == Some(outcome.failures[i].1)
    ensures forall i, j :: 0 <= i < j < |outcome.failures| ==> outcome.failures[i].0 != outcome.failures[j].0
    ensures Thrifty(trace, required) && |Launched(trace)| <= targets && Failed(trace) == |outcome.failures|
    ensures Prompt(trace, targets, required)
  {
    if required == 0 {
      Start(result, targets, required);
      return Outcome([], [], true), [];
    }
    hide Traced, Thrifty, Listed, NoDup, Launched, Failed, Successes, Prompt;
    var r := LaunchFirst(targets, required, result);
    while r.inFlight != {}
      invariant Listed(result, r) && Traced(r, required) && Prompt(r.trace, targets, required)
      invariant r.next == Min(targets, required + |r.failures|) && |r.successful| < required
      invariant r.next == |r.inFlight| + |r.successful| + |r.failures|
      decreases targets - |r.successful| - |r.failures|
    {
      r := CompleteOne(targets, required, result, r);
      if |r.successful| >= required {
        Reached(result, required, r, targets);
        return Outcome(r.successful, r.failures, true), r.trace;
      }
    }
    NotReached(result, required, r, targets);
    outcome, trace := Outcome(r.successful, r.failures, false), r.trace;
  }

  lemma Start<E>(result: Results<E>, targets: nat, required: nat)
    ensures Prompt<E>([], targets, required)
    ensures Traced(Run<E>.Run(0, {}, [], [], []), required) && Listed(result, Run(0, {}, [], [], []))
  {
    var none: seq<Event<E>> := [];
    assert none[..0] == none;
  }

  lemma Reached<E>(result: Results<E>, required: nat, r: Run<E>, targets: nat)
    requires Listed(result, r) && Traced(r, required) && r.next <= targets && |r.successful| == required
    ensures required <= |Successes(result, targets)|
    ensures forall t :: t in r.successful ==> t in Successes(result, targets)
    ensures NoDup(r.successful)
    ensures forall i, j :: 0 <= i < j < |r.failures| ==> r.failures[i].0 != r.failures[j].0
    ensures forall i :: 0 <= i < |r.failures| ==>
              r.failures[i].0 < targets && result(r.failures[i].0) == Some(r.failures[i].1)
    ensures Thrifty(r.trace, required) && |Launched(r.trace)| <= targets && Failed(r.trace) == |r.failures|
  {
    DistinctWithin(r.successful, Successes(result, targets));
  }

  lemma NotReached<E>(result: Results<E>, required: nat, r: Run<E>, targets: nat)
    requires Listed(result, r) && Traced(r, required) && r.inFlight == {} && |r.successful| < required
    requires r.next == Min(targets, required + |r.failures|)
    ensures |Successes(result, targets)| == |r.successful| && |r.failures| == targets - |r.successful|
    ensures forall t :: t in Successes(result, targets) <==> t in r.successful
    ensures NoDup(r.successful)
    ensures forall i, j :: 0 <= i < j < |r.failures| ==> r.failures[i].0 != r.failures[j].0
    ensures forall i :: 0 <= i < |r.failures| ==>
              r.failures[i].0 < targets && result(r.failures[i].0) == Some(r.failures[i].1)
    ensures Thrifty(r.trace, required) && |Launched(r.trace)| <= targets && Failed(r.trace) == |r.failures|
  {
    DistinctWithin(r.successful, Successes(result, targets));
  }
}
