/** Service traversal over an arbitrary executor (internal/routes/service.go). */
module Hops {
  import opened Prelude
  import opened Domain

  datatype Envelope = Envelope(mediaType: string, filename: string, metadata: map<string, string>)

  datatype Payload = Payload(bytes: seq<byte>, envelope: Envelope)

  /** `sum` is the hex SHA-256 of bytes; `seal` that of the marshalled envelope,
      absent when the metadata cannot be marshalled. */
  datatype Hashing = Hashing(sum: seq<byte> -> string, seal: Envelope -> Option<string>)

  datatype Service = Service(id: RecordId, canonical: string)

  /** What happens at one hop: the context may be done before it, and the executor
      answers with any payload and possibly an error. */
  datatype Attempt = Attempt(cancelled: bool, output: Payload, failed: bool)

  datatype HopResult = HopResult(index: nat, serviceId: RecordId, canonical: string, completed: bool,
                                 inputSum: string, outputSum: string, error: Option<Code>)

  const EMPTY := Payload([], Envelope("", "", map[]))

  /** The executor is reached at all. */
  predicate Called(h: Hashing, input: Payload, a: Attempt) {
    !a.cancelled && h.seal(input.envelope).Some?
  }

  /** The hop is faithful: it hands on a payload indistinguishable from `input`. */
  predicate Faithful(h: Hashing, input: Payload, a: Attempt) {
    && Called(h, input, a) && !a.failed
    && h.sum(a.output.bytes) == h.sum(input.bytes) && h.seal(a.output.envelope) == h.seal(input.envelope)
  }

  /** The first unfaithful hop, or the number of hops. */
  function Stop(h: Hashing, input: Payload, attempts: seq<Attempt>, n: nat): (r: nat)
    requires n <= |attempts|
    ensures r <= n && (forall i | 0 <= i < r :: Faithful(h, input, attempts[i]))
    ensures r < n ==> !Faithful(h, input, attempts[r])
  {
    if n == 0 then 0
    else
      var before := Stop(h, input, attempts, n - 1);
      if before < n - 1 || !Faithful(h, input, attempts[n - 1]) then before else n
  }

  function Row(h: Hashing, s: Service, input: Payload, a: Attempt, i: nat): HopResult {
    var ok := Faithful(h, input, a);
    HopResult(i, s.id, s.canonical, ok, h.sum(input.bytes), h.sum(a.output.bytes),
              if ok then None else Some(ServiceHopFailed))
  }

  /** One row per occurrence up to the first unfaithful hop, and that hop's own row
      when its executor was called. */
  predicate RowsOf(h: Hashing, services: seq<Service>, input: Payload, attempts: seq<Attempt>, results: seq<HopResult>)
    requires |services| <= |attempts|
  {
    var stop := Stop(h, input, attempts, |services|);
    && |results| == (if stop < |services| && Called(h, input, attempts[stop]) then stop + 1 else stop)
    && forall i | 0 <= i < |results| :: results[i] == Row(h, services[i], input, attempts[i], i)
  }

  /** `attempts[i]` is the executor's behaviour at hop i, whatever it did before. */
  method ExecuteHops(h: Hashing, services: seq<Service>, input: Payload, maxHops: nat, executorPresent: bool,
                     attempts: seq<Attempt>)
    returns (r: Result<Payload, Code>, results: seq<HopResult>, ghost calls: nat)
    requires |attempts| >= |services|
    ensures |services| > maxHops ==> r == Err(RouteTooLong) && results == [] && calls == 0
    ensures services == [] ==> r == Ok(input) && results == []
    ensures 0 < |services| <= maxHops && !executorPresent ==> r == Err(ServiceHopFailed) && results == [] && calls == 0
    ensures 0 < |services| <= maxHops && executorPresent ==>
      && RowsOf(h, services, input, attempts, results) && calls == |results|
      && r == if Stop(h, input, attempts, |services|) == |services| then Ok(attempts[|services| - 1].output)
              else Err(ServiceHopFailed)
  {
    calls, results := 0, [];
    if |services| > maxHops {
      return Err(RouteTooLong), [], 0;
    }
    if |services| == 0 {
      return Ok(input), [], 0;
    }
    if !executorPresent {
      return Err(ServiceHopFailed), [], 0;
    }
    var current := input;
    for i := 0 to |services|
      invariant Stop(h, input, attempts, i) == i
      invariant current == if i == 0 then input else attempts[i - 1].output
      invariant h.sum(current.bytes) == h.sum(input.bytes) && h.seal(current.envelope) == h.seal(input.envelope)
      invariant calls == |results| == i
      invariant forall k | 0 <= k < i :: results[k] == Row(h, services[k], input, attempts[k], k)
    {
      StopBefore(h, input, attempts, i, |services|);
      var attempt := attempts[i];
      if attempt.cancelled || h.seal(current.envelope).None? {
        return Err(ServiceHopFailed), results, calls;
      }
      var inputSum, inputSeal := h.sum(current.bytes), h.seal(current.envelope);
      var output := attempt.output;
      calls := calls + 1;
      var outputSum, outputSeal := h.sum(output.bytes), h.seal(output.envelope);
      var result := HopResult(i, services[i].id, services[i].canonical, true, inputSum, outputSum, None);
      if attempt.failed || outputSeal.None? || inputSum != outputSum || inputSeal != outputSeal {
        results := results + [result.(completed := false, error := Some(ServiceHopFailed))];
        return Err(ServiceHopFailed), results, calls;
      }
      results := results + [result];
      current := output;
    }
    return Ok(current), results, calls;
  }

  /** The first unfaithful hop of a prefix is the first of the whole route. */
  lemma {:induction false} StopBefore(h: Hashing, input: Payload, attempts: seq<Attempt>, i: nat, n: nat)
    requires i < n <= |attempts| && Stop(h, input, attempts, i) == i
    ensures !Faithful(h, input, attempts[i]) ==> Stop(h, input, attempts, n) == i
    ensures Faithful(h, input, attempts[i]) ==> Stop(h, input, attempts, i + 1) == i + 1
  {
    hide Faithful;
    var stop := Stop(h, input, attempts, n);
    assert stop >= i by {
      assert forall k | 0 <= k < i :: Faithful(h, input, attempts[k]);
    }
  }

  /** With a collision-free hash, whatever the executors do, a delivered payload
      carries the input bytes and every row is completed with the input checksum. */
  lemma DeliveredIsInput(h: Hashing, services: seq<Service>, input: Payload, attempts: seq<Attempt>,
                         results: seq<HopResult>)
    requires 0 < |services| <= |attempts| && forall a, b :: h.sum(a) == h.sum(b) ==> a == b
    requires RowsOf(h, services, input, attempts, results) && Stop(h, input, attempts, |services|) == |services|
    ensures attempts[|services| - 1].output.bytes == input.bytes
    ensures |results| == |services|
    ensures forall i | 0 <= i < |results| ::
      results[i].completed && results[i].index == i && results[i].inputSum == results[i].outputSum == h.sum(input.bytes)
  {
    assert Faithful(h, input, attempts[|services| - 1]);
  }

  /** Whatever the executors do, a delivered payload carries the sealed envelope of the
      input, so with a collision-free seal the envelope itself. */
  lemma DeliveredKeepsEnvelope(h: Hashing, services: seq<Service>, input: Payload, attempts: seq<Attempt>)
    requires 0 < |services| <= |attempts| && Stop(h, input, attempts, |services|) == |services|
    ensures var output := attempts[|services| - 1].output;
      && h.seal(input.envelope).Some? && h.seal(output.envelope) == h.seal(input.envelope)
      && ((forall x, y | h.seal(x).Some? && h.seal(x) == h.seal(y) :: x == y) ==> output.envelope == input.envelope)
  {
    assert Faithful(h, input, attempts[|services| - 1]);
  }

  /** Rows are completed except possibly the last, and a failed row is last. */
  lemma OnlyLastRowFails(h: Hashing, services: seq<Service>, input: Payload, attempts: seq<Attempt>,
                         results: seq<HopResult>, i: nat)
    requires |services| <= |attempts| && RowsOf(h, services, input, attempts, results) && i < |results|
    ensures results[i].completed <==> results[i].error.None?
    ensures !results[i].completed <==> i == |results| - 1 && Stop(h, input, attempts, |services|) < |results|
  {
    hide Called;
    assert i < Stop(h, input, attempts, |services|) ==> Faithful(h, input, attempts[i]);
  }

  /** The context at one hop: it lasts, it is done when the loop asks, or it ends between
      there and the executor's own question. */
  datatype Context = Lasts | DoneBefore | DoneWithin

  /** The v0 executor returns its input, or nothing and the error of a done context. */
  function IdentityAttempt(input: Payload, context: Context): Attempt {
    match context
    case Lasts => Attempt(false, input, false)
    case DoneBefore => Attempt(true, EMPTY, true)
    case DoneWithin => Attempt(false, EMPTY, true)
  }

  function IdentityAttempts(input: Payload, contexts: seq<Context>): (r: seq<Attempt>)
    ensures |r| == |contexts| && forall i | 0 <= i < |r| :: r[i] == IdentityAttempt(input, contexts[i])
  {
    seq(|contexts|, i requires 0 <= i < |contexts| => IdentityAttempt(input, contexts[i]))
  }

  /** With the identity executor the traversal stops only at a done context, or at
      once when the metadata cannot be sealed. */
  lemma {:induction false} IdentityStops(h: Hashing, input: Payload, contexts: seq<Context>, n: nat)
    requires n <= |contexts|
    ensures Stop(h, input, IdentityAttempts(input, contexts), n) == n
        <==> n == 0 || (h.seal(input.envelope).Some? && forall i | 0 <= i < n :: contexts[i].Lasts?)
  {
    var attempts := IdentityAttempts(input, contexts);
    var stop := Stop(h, input, attempts, n);
    if stop == n {
      forall i | 0 <= i < n ensures h.seal(input.envelope).Some? && contexts[i].Lasts? {
        assert Faithful(h, input, attempts[i]);
      }
    } else if h.seal(input.envelope).Some? && contexts[stop].Lasts? {
      assert false;
    }
  }

  /** The rows of an identity traversal: completed with the payload's checksum on both
      sides, except that the hop at which the context ended within fails with no output. */
  lemma IdentityRows(h: Hashing, services: seq<Service>, input: Payload, contexts: seq<Context>,
                     results: seq<HopResult>, i: nat)
    requires |services| <= |contexts| && i < |results|
    requires RowsOf(h, services, input, IdentityAttempts(input, contexts), results)
    ensures i < |services| && contexts[i] in {Lasts, DoneWithin}
    ensures var s, sum := services[i], h.sum(input.bytes);
      results[i] == if contexts[i].Lasts? then HopResult(i, s.id, s.canonical, true, sum, sum, None)
                    else HopResult(i, s.id, s.canonical, false, sum, h.sum([]), Some(ServiceHopFailed))
    ensures contexts[i].DoneWithin? ==> i == |results| - 1
  {
    var attempts := IdentityAttempts(input, contexts);
    var stop := Stop(h, input, attempts, |services|);
    assert i < stop ==> Faithful(h, input, attempts[i]);
    hide Stop;
  }
}
