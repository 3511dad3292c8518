/** Range reads of `client_engine/files.rs`: fetch the chunks that overlap a
    half-open plaintext range, decrypt each as it arrives, and copy its part into
    the output. The index and the cipher are those of the self_encryption crate;
    what is assumed of them is `Index.Valid` and `Faithful`. */
module RangeRead {
  import opened Prelude
  import opened Sorting
  import opened DeferredFetch

  /** Chunk `i` covers plaintext `bounds[i]..bounds[i + 1]`. */
  datatype Index = Index(bounds: seq<nat>, addresses: seq<Address>) {
    predicate Valid() {
      && |bounds| == |addresses| + 1
      && bounds[0] == 0
      && forall i, j :: 0 <= i < j < |bounds| ==> bounds[i] < bounds[j]
    }

    function Size(): nat
      requires Valid()
    {
      bounds[|addresses|]
    }

    predicate Overlaps(i: nat, start: nat, end: nat)
      requires Valid() && i < |addresses|
    {
      start < bounds[i + 1] && bounds[i] < end
    }

    /** The chunks that overlap `start..end`, as a range of positions. */
    predicate Overlapping(start: nat, end: nat, lo: nat, hi: nat)
      requires Valid()
    {
      && lo <= hi <= |addresses|
      && forall i :: 0 <= i < |addresses| ==> (lo <= i < hi <==> Overlaps(i, start, end))
    }
  }

  type Decrypt = (nat, Bytes) -> Option<Bytes>

  /** A record at chunk `i`'s address decrypts to chunk `i`, if at all. */
  ghost predicate Faithful(index: Index, plaintext: Bytes, hash: Bytes -> Address, decrypt: Decrypt)
    requires index.Valid()
  {
    && |plaintext| == index.Size()
    && forall i, bytes :: 0 <= i < |index.addresses| && hash(bytes) == index.addresses[i] && decrypt(i, bytes).Some? ==>
         decrypt(i, bytes).value == Span(index, plaintext, i)
  }

  lemma SpanWithin(index: Index, i: nat)
    requires index.Valid() && i < |index.addresses|
    ensures index.bounds[i] < index.bounds[i + 1] <= index.Size()
  {
  }

  function Span(index: Index, plaintext: Bytes, i: nat): Bytes
    requires index.Valid() && |plaintext| == index.Size() && i < |index.addresses|
  {
    SpanWithin(index, i);
    plaintext[index.bounds[i]..index.bounds[i + 1]]
  }

  /** Where a plaintext position lies. */
  lemma {:induction false} ChunkAt(index: Index, p: nat, n: nat) returns (i: nat)
    requires index.Valid() && 0 < n <= |index.addresses| && p < index.bounds[n]
    ensures i < n && index.bounds[i] <= p < index.bounds[i + 1]
  {
    if p < index.bounds[n - 1] {
      i := ChunkAt(index, p, n - 1);
    } else {
      i := n - 1;
    }
  }

  method ChunksOverlapping(index: Index, start: nat, end: nat) returns (lo: nat, hi: nat)
    requires index.Valid() && start < end <= index.Size()
    ensures index.Overlapping(start, end, lo, hi)
  {
    lo := 0;
    while index.bounds[lo + 1] <= start
      invariant lo < |index.addresses|
      invariant lo == 0 || index.bounds[lo] <= start
    {
      lo := lo + 1;
    }
    hi := lo;
    while hi < |index.addresses| && index.bounds[hi] < end
      invariant lo <= hi <= |index.addresses|
      invariant hi == lo || index.bounds[hi - 1] < end
    {
      hi := hi + 1;
    }
    forall i | 0 <= i < |index.addresses|
      ensures lo <= i < hi <==> index.Overlaps(i, start, end)
    {
      assert i < lo ==> index.bounds[i + 1] <= index.bounds[lo] || i + 1 == lo;
    }
  }

  function RequestsFor(index: Index, lo: nat, hi: nat): (r: seq<Request>)
    requires lo <= hi <= |index.addresses|
    ensures |r| == hi - lo
    ensures forall k :: 0 <= k < |r| ==> r[k] == Request(lo + k, index.addresses[lo + k])
  {
    seq(hi - lo, k requires 0 <= k < hi - lo => Request(lo + k, index.addresses[lo + k]))
  }

  /** What the adapter answers for attempt `round` at a chunk. */
  type Replies<E> = (nat, nat) -> Result<Bytes, E>

  /** Verify a fetched record and decrypt it, or keep its error for a retry. */
  function Check<E>(request: Request, reply: Result<Bytes, E>, hash: Bytes -> Address, decrypt: Decrypt,
                    retryable: E -> bool): Attempt<E> {
    match reply
    case Err(error) => if retryable(error) then Miss(error) else Abort(Fetch(error))
    case Ok(bytes) =>
      if hash(bytes) != request.address then Abort(Invalid)
      else match decrypt(request.index, bytes)
        case None => Abort(Invalid)
        case Some(plain) => Got(plain)
  }

  function Outcome<E>(requests: seq<Request>, replies: Replies<E>, hash: Bytes -> Address, decrypt: Decrypt,
                      retryable: E -> bool): Outcomes<E> {
    (id: nat, round: nat) =>
      if id < |requests| then Check(requests[id], replies(requests[id].index, round), hash, decrypt, retryable)
      else Abort(Invalid)
  }

  // When a chunk is had, in terms of what the adapter answers

  /** What a chunk is fetched, checked and decrypted with. */
  datatype Source<!E> = Source(replies: Replies<E>, hash: Bytes -> Address, decrypt: Decrypt, retryable: E -> bool) {
    /** Every attempt at chunk `i` before `round` failed with an error to retry. */
    ghost predicate Retried(i: nat, round: nat) {
      forall q: nat :: 1 <= q < round ==> replies(i, q).Err? && retryable(replies(i, q).error)
    }

    /** The reply to attempt `round` is the chunk. */
    predicate IsChunk(index: Index, i: nat, round: nat)
      requires i < |index.addresses|
    {
      && replies(i, round).Ok? && hash(replies(i, round).value) == index.addresses[i]
      && decrypt(i, replies(i, round).value).Some?
    }

    /** One of the first four attempts brings the chunk, and all before it are to be
        retried. */
    ghost predicate Comes(index: Index, i: nat)
      requires i < |index.addresses|
    {
      exists round: nat :: 1 <= round <= 4 && Retried(i, round) && IsChunk(index, i, round)
    }

    /** Attempt `round` ends the read: an error not to be retried, or a record that is
        not the chunk. */
    ghost predicate Breaks(index: Index, i: nat, round: nat, error: ReadError<E>)
      requires i < |index.addresses|
    {
      && 1 <= round <= 4 && Retried(i, round)
      && match replies(i, round)
         case Err(e) => !retryable(e) && error == Fetch(e)
         case Ok(_) => !IsChunk(index, i, round) && error == Invalid
    }

    /** All four attempts at a chunk failed with an error to retry; `error` is the
        last one at a chunk of the range with the same address. */
    ghost predicate RunsOut(index: Index, lo: nat, hi: nat, i: nat, error: ReadError<E>)
      requires lo <= i < hi <= |index.addresses|
    {
      && Retried(i, 5) && error.Fetch?
      && exists j :: lo <= j < hi && index.addresses[j] == index.addresses[i] && replies(j, 4) == Err(error.error)
    }

    ghost predicate Fails(index: Index, lo: nat, hi: nat, error: ReadError<E>)
      requires lo <= hi <= |index.addresses|
    {
      || (exists i, round :: lo <= i < hi && Breaks(index, i, round, error))
      || (exists i :: lo <= i < hi && RunsOut(index, lo, hi, i, error))
    }

    /** No chunk is tried twice in a round, after four rounds, or again unless every
        attempt so far is to be retried. An attempt is a place in the range and a round. */
    ghost predicate TriesOk(attempts: seq<(nat, nat)>, lo: nat, hi: nat) {
      && NoDup(attempts)
      && forall a :: a in attempts ==> lo + a.0 < hi && 1 <= a.1 <= 4 && Retried(lo + a.0, a.1)
    }
  }

  lemma MissIsRetried<E>(f: Source<E>, requests: seq<Request>, id: nat, round: nat)
    requires id < |requests|
    ensures var outcome := Outcome(requests, f.replies, f.hash, f.decrypt, f.retryable);
      MissedBefore(outcome, id, round) <==> f.Retried(requests[id].index, round)
  {
    var outcome := Outcome(requests, f.replies, f.hash, f.decrypt, f.retryable);
    var i := requests[id].index;
    assert forall q: nat :: outcome(id, q).Miss? <==> f.replies(i, q).Err? && f.retryable(f.replies(i, q).error);
    if MissedBefore(outcome, id, round) {
      forall q: nat | 1 <= q < round ensures f.replies(i, q).Err? && f.retryable(f.replies(i, q).error) {
        assert outcome(id, q).Miss?;
      }
    }
  }

  /** Obtained, as the rounds see it, is what the replies make it. */
  lemma ObtainedIffComes<E>(f: Source<E>, index: Index, lo: nat, hi: nat, id: nat)
    requires lo <= hi <= |index.addresses| && id < hi - lo
    ensures Obtained(Outcome(RequestsFor(index, lo, hi), f.replies, f.hash, f.decrypt, f.retryable), id)
            <==> f.Comes(index, lo + id)
  {
    hide MissedBefore;
    var requests, i := RequestsFor(index, lo, hi), lo + id;
    var outcome := Outcome(requests, f.replies, f.hash, f.decrypt, f.retryable);
    forall round: nat
      ensures GotAt(outcome, id, round) <==> 1 <= round <= 4 && f.Retried(i, round) && f.IsChunk(index, i, round)
    {
      MissIsRetried(f, requests, id, round);
    }
    if f.Comes(index, i) {
      var round: nat :| 1 <= round <= 4 && f.Retried(i, round) && f.IsChunk(index, i, round);
      assert GotAt(outcome, id, round);
    }
  }

  lemma BreaksAsReplied<E>(f: Source<E>, index: Index, lo: nat, hi: nat, id: nat, round: nat, error: ReadError<E>)
    requires lo <= hi <= |index.addresses| && id < hi - lo
    requires var outcome := Outcome(RequestsFor(index, lo, hi), f.replies, f.hash, f.decrypt, f.retryable);
      AbortsAt(outcome, id, round) && outcome(id, round) == Abort(error)
    ensures f.Breaks(index, lo + id, round, error)
  {
    MissIsRetried(f, RequestsFor(index, lo, hi), id, round);
  }

  lemma RunsOutAsReplied<E>(f: Source<E>, index: Index, lo: nat, hi: nat, id: nat, error: ReadError<E>)
    requires lo <= hi <= |index.addresses| && id < hi - lo && error.Fetch?
    requires var requests := RequestsFor(index, lo, hi);
      var outcome := Outcome(requests, f.replies, f.hash, f.decrypt, f.retryable);
      Exhausted(outcome, id) && IsMissOf(requests, outcome, ROUNDS, requests[id].address, error.error)
    ensures f.RunsOut(index, lo, hi, lo + id, error)
  {
    var requests := RequestsFor(index, lo, hi);
    var outcome := Outcome(requests, f.replies, f.hash, f.decrypt, f.retryable);
    MissIsRetried(f, requests, id, 5);
    var other: nat :| other < |requests| && requests[other].address == requests[id].address
      && outcome(other, ROUNDS) == Miss(error.error);
    assert f.replies(lo + other, 4) == Err(error.error);
  }

  lemma FailsAsReplied<E>(f: Source<E>, index: Index, lo: nat, hi: nat, error: ReadError<E>)
    requires lo <= hi <= |index.addresses|
    requires var requests := RequestsFor(index, lo, hi);
      FailsFor(requests, Outcome(requests, f.replies, f.hash, f.decrypt, f.retryable), error)
    ensures f.Fails(index, lo, hi, error)
  {
    hide AbortsAt, Exhausted, IsMissOf, Outcome, Source.Breaks, Source.RunsOut;
    var requests := RequestsFor(index, lo, hi);
    var outcome := Outcome(requests, f.replies, f.hash, f.decrypt, f.retryable);
    if id: nat, round: nat :| id < |requests| && AbortsAt(outcome, id, round) && outcome(id, round) == Abort(error) {
      BreaksAsReplied(f, index, lo, hi, id, round, error);
    } else {
      var id: nat :| id < |requests| && Exhausted(outcome, id) && error.Fetch?
        && IsMissOf(requests, outcome, ROUNDS, requests[id].address, error.error);
      RunsOutAsReplied(f, index, lo, hi, id, error);
    }
  }

  lemma TriesAsReplied<E>(f: Source<E>, index: Index, lo: nat, hi: nat, attempts: seq<(nat, nat)>)
    requires lo <= hi <= |index.addresses|
    requires var requests := RequestsFor(index, lo, hi);
      AttemptsOk(requests, Outcome(requests, f.replies, f.hash, f.decrypt, f.retryable), attempts)
    ensures f.TriesOk(attempts, lo, hi)
  {
    var requests := RequestsFor(index, lo, hi);
    forall a | a in attempts
      ensures lo + a.0 < hi && 1 <= a.1 <= 4 && f.Retried(lo + a.0, a.1)
    {
      MissIsRetried(f, requests, a.0, a.1);
    }
  }

  lemma AllComeIff<E>(f: Source<E>, index: Index, lo: nat, hi: nat)
    requires lo <= hi <= |index.addresses|
    ensures (forall id: nat :: id < hi - lo ==>
               Obtained(Outcome(RequestsFor(index, lo, hi), f.replies, f.hash, f.decrypt, f.retryable), id))
            <==> forall i :: lo <= i < hi ==> f.Comes(index, i)
  {
    hide Obtained, Outcome, Source.Comes;
    var outcome := Outcome(RequestsFor(index, lo, hi), f.replies, f.hash, f.decrypt, f.retryable);
    forall id: nat | id < hi - lo
      ensures Obtained(outcome, id) <==> f.Comes(index, lo + id)
    {
      ObtainedIffComes(f, index, lo, hi, id);
    }
    if forall id: nat :: id < hi - lo ==> Obtained(outcome, id) {
      forall i | lo <= i < hi ensures f.Comes(index, i) { assert Obtained(outcome, i - lo); }
    }
  }

  lemma DeliversSpan<E>(index: Index, plaintext: Bytes, lo: nat, hi: nat, replies: Replies<E>,
                        hash: Bytes -> Address, decrypt: Decrypt, retryable: E -> bool, id: nat)
    requires index.Valid() && Faithful(index, plaintext, hash, decrypt) && lo <= hi <= |index.addresses| && id < hi - lo
    requires Obtained(Outcome(RequestsFor(index, lo, hi), replies, hash, decrypt, retryable), id)
    ensures BytesOf(Outcome(RequestsFor(index, lo, hi), replies, hash, decrypt, retryable), id)
            == Span(index, plaintext, lo + id)
  {
    var outcome := Outcome(RequestsFor(index, lo, hi), replies, hash, decrypt, retryable);
    var round :| GotAt(outcome, id, round);
    BytesUnique(outcome, id, round);
    assert outcome(id, round).Got?;
    assert Check(RequestsFor(index, lo, hi)[id], replies(lo + id, round), hash, decrypt, retryable).Got?;
    var bytes := replies(lo + id, round).value;
    assert hash(bytes) == index.addresses[lo + id] && decrypt(lo + id, bytes).Some?;
  }

  // Filling the output

  /** Output cell `p - start` is plaintext byte `p`. */
  ghost predicate Right(output: Bytes, plaintext: Bytes, start: nat, p: nat)
    requires start <= p < |plaintext| && p - start < |output|
  {
    output[p - start] == plaintext[p]
  }

  /** The part of `start..end` that lies in chunk `i` is right. */
  ghost predicate Copied(index: Index, plaintext: Bytes, start: nat, end: nat, output: Bytes, i: nat)
    requires index.Valid() && |plaintext| == index.Size() && start < end <= |plaintext| && |output| == end - start
    requires i < |index.addresses|
  {
    forall p :: start <= p < end && index.bounds[i] <= p < index.bounds[i + 1] ==> Right(output, plaintext, start, p)
  }

  /** Copy a decrypted chunk's part of the range into place; what was right in
      any other chunk stays right. */
  method CopyChunk(index: Index, ghost plaintext: Bytes, start: nat, end: nat, output: array<nat>, i: nat, chunk: Bytes)
    requires index.Valid() && |plaintext| == index.Size() && start < end <= index.Size() && output.Length == end - start
    requires i < |index.addresses| && index.Overlaps(i, start, end) && chunk == Span(index, plaintext, i)
    modifies output
    ensures Copied(index, plaintext, start, end, output[..], i)
    ensures forall c :: 0 <= c < |index.addresses| && old(Copied(index, plaintext, start, end, output[..], c)) ==>
              Copied(index, plaintext, start, end, output[..], c)
  {
    SpanWithin(index, i);
    var from := if start < index.bounds[i] then index.bounds[i] else start;
    var upTo := if index.bounds[i + 1] < end then index.bounds[i + 1] else end;
    var base := index.bounds[i];
    forall k | from - start <= k < upTo - start {
      output[k] := chunk[k + start - base];
    }
    assert forall p :: from <= p < upTo ==> Right(output[..], plaintext, start, p);
    forall c | 0 <= c < |index.addresses| && old(Copied(index, plaintext, start, end, output[..], c))
      ensures Copied(index, plaintext, start, end, output[..], c)
    {
      forall p | start <= p < end && index.bounds[c] <= p < index.bounds[c + 1]
        ensures Right(output[..], plaintext, start, p)
      {
        assert old(Right(output[..], plaintext, start, p));
      }
    }
  }

  /** Each delivered record is the plaintext of the chunk it was requested for. */
  ghost predicate Spans(index: Index, plaintext: Bytes, lo: nat, hi: nat, delivered: seq<nat>, results: seq<Record>)
    requires index.Valid() && |plaintext| == index.Size() && lo <= hi <= |index.addresses|
  {
    && |results| == |delivered|
    && forall k :: 0 <= k < |results| ==>
         delivered[k] < hi - lo && results[k] == (lo + delivered[k], Span(index, plaintext, lo + delivered[k]))
  }

  lemma DeliversSpans<E>(index: Index, plaintext: Bytes, lo: nat, hi: nat, replies: Replies<E>,
                         hash: Bytes -> Address, decrypt: Decrypt, retryable: E -> bool,
                         delivered: seq<nat>, results: seq<Record>)
    requires index.Valid() && Faithful(index, plaintext, hash, decrypt) && lo <= hi <= |index.addresses|
    requires Filed(RequestsFor(index, lo, hi), Outcome(RequestsFor(index, lo, hi), replies, hash, decrypt, retryable),
                   delivered, results)
    ensures Spans(index, plaintext, lo, hi, delivered, results)
  {
    forall k | 0 <= k < |results|
      ensures delivered[k] < hi - lo && results[k] == (lo + delivered[k], Span(index, plaintext, lo + delivered[k]))
    {
      DeliversSpan(index, plaintext, lo, hi, replies, hash, decrypt, retryable, delivered[k]);
    }
  }

  /** Copy every chunk as it is delivered. */
  method CopyAll(index: Index, ghost plaintext: Bytes, start: nat, end: nat, ghost lo: nat, ghost hi: nat,
                 output: array<nat>, ghost delivered: seq<nat>, results: seq<Record>)
    requires index.Valid() && |plaintext| == index.Size() && start < end <= index.Size() && output.Length == end - start
    requires index.Overlapping(start, end, lo, hi) && Spans(index, plaintext, lo, hi, delivered, results)
    modifies output
    ensures forall j :: 0 <= j < |delivered| ==>
              lo + delivered[j] < |index.addresses|
                && Copied(index, plaintext, start, end, output[..], lo + delivered[j])
  {
    hide Copied, Span;
    for k := 0 to |results|
      invariant forall j :: 0 <= j < k ==> Copied(index, plaintext, start, end, output[..], lo + delivered[j])
    {
      assert index.Overlaps(lo + delivered[k], start, end);
      CopyChunk(index, plaintext, start, end, output, results[k].0, results[k].1);
    }
  }

  /** When every overlapping chunk is in place, the output is the range. */
  lemma AllCopied(index: Index, plaintext: Bytes, start: nat, end: nat, lo: nat, hi: nat, output: Bytes,
                  delivered: seq<nat>)
    requires index.Valid() && |plaintext| == index.Size() && start < end <= |plaintext| && |output| == end - start
    requires index.Overlapping(start, end, lo, hi) && Permutes(delivered, hi - lo)
    requires forall j :: 0 <= j < |delivered| ==>
               lo + delivered[j] < |index.addresses| && Copied(index, plaintext, start, end, output, lo + delivered[j])
    ensures output == plaintext[start..end]
  {
    forall k | 0 <= k < |output|
      ensures output[k] == plaintext[start + k]
    {
      var i := ChunkAt(index, start + k, |index.addresses|);
      assert index.Overlaps(i, start, end);
      assert i - lo in delivered;
      assert Copied(index, plaintext, start, end, output, i);
      assert Right(output, plaintext, start, start + k);
    }
  }

  /** Where a range ends: `start + length`, saturating, or the end of the file. */
  function RangeEnd(index: Index, start: nat, length: nat): nat
    requires index.Valid()
  {
    Min(Min(start + length, U64_MAX), index.Size())
  }

  /** A range read returns exactly the plaintext range, in whatever order chunks
      arrive and however often they are missed first. It succeeds exactly when the
      buffer can be had and every overlapping chunk comes within four attempts. */
  method ReadIndexedRange<E>(index: Index, ghost plaintext: Bytes, start: nat, length: nat, f: Source<E>,
                             allocates: nat -> bool)
    returns (result: Result<Bytes, ReadError<E>>, attempts: seq<(nat, nat)>, ghost lo: nat, ghost hi: nat)
    requires index.Valid() && |plaintext| == index.Size() && Faithful(index, plaintext, f.hash, f.decrypt)
    requires start <= U64_MAX && length <= U64_MAX && index.Size() <= U64_MAX
    ensures result.Ok? && start < |plaintext| ==> result.value == plaintext[start..Min(start + length, |plaintext|)]
    ensures start >= |plaintext| || length == 0 ==> result == Ok([]) && attempts == []
    ensures start < |plaintext| && length > 0 ==>
      var end := RangeEnd(index, start, length);
      && index.Overlapping(start, end, lo, hi)
      && (result.Ok? <==> allocates(end - start) && forall i :: lo <= i < hi ==> f.Comes(index, i))
      && (result.Err? && allocates(end - start) ==> f.Fails(index, lo, hi, result.error))
      && (!allocates(end - start) ==> result == Err(Invalid) && attempts == [])
      && f.TriesOk(attempts, lo, hi)
  {
    hide Faithful, Copied, Span, Spans, Filed, AttemptsOk, Outcome, Obtained, Permutes, FailsFor, NoDup, Ascending,
         Source.Comes, Source.Fails, Source.TriesOk;
    var end := RangeEnd(index, start, length);
    attempts, lo, hi := [], 0, 0;
    if start >= end {
      return Ok([]), attempts, lo, hi;
    }
    var first, last := ChunksOverlapping(index, start, end);
    lo, hi := first, last;
    var requests := RequestsFor(index, first, last);
    var outcome := Outcome(requests, f.replies, f.hash, f.decrypt, f.retryable);
    if !allocates(end - start) {
      NoTries(f, lo, hi);
      return Err(Invalid), attempts, lo, hi;
    }
    var output := new nat[end - start](_ => 0);
    var batch, delivered, results, tried := DeferredBatch(requests, outcome);
    attempts := tried;
    TriesAsReplied(f, index, lo, hi, attempts);
    AllComeIff(f, index, lo, hi);
    DeliversSpans(index, plaintext, lo, hi, f.replies, f.hash, f.decrypt, f.retryable, delivered, results);
    CopyAll(index, plaintext, start, end, lo, hi, output, delivered, results);
    if batch.Err? {
      FailsAsReplied(f, index, lo, hi, batch.error);
      return Err(batch.error), attempts, lo, hi;
    }
    AllCopied(index, plaintext, start, end, lo, hi, output[..], delivered);
    result := Ok(output[..]);
  }

  lemma NoTries<E>(f: Source<E>, lo: nat, hi: nat)
    ensures f.TriesOk([], lo, hi)
  {
  }
}
