/** Idempotency records and the claim protocol around them (internal/store/transfers.go,
    startIdempotency of internal/httpapi/handlers_execution.go). */
module IdempotencyRecords {
  import opened Prelude
  import opened Domain

  datatype Key = Key(user: RecordId, scope: string, key: string)

  /** A stored status and JSON value. */
  datatype Response = Response(status: nat, body: string)

  datatype Record = Record(id: RecordId, hash: string, response: Option<Response>, createdAt: nat, expiresAt: nat)

  type Records = map<Key, Record>

  predicate IdFree(rs: Records, id: RecordId) {
    forall k | k in rs :: rs[k].id != id
  }

  predicate Live(rs: Records, k: Key, now: nat) {
    k in rs && rs[k].expiresAt > now
  }

  /** The insert goes in, or takes over the expired row of the key. */
  predicate Claimable(rs: Records, k: Key, id: RecordId, expiresAt: nat, now: nat) {
    expiresAt > now && !Live(rs, k, now) && (k !in rs ==> IdFree(rs, id))
  }

  function Claimed(rs: Records, k: Key, id: RecordId, hash: string, expiresAt: nat, now: nat): Records {
    rs[k := Record(if k in rs then rs[k].id else id, hash, None, now, expiresAt)]
  }

  /** The update by row id, where no response is stored yet. */
  function Completed(rs: Records, id: RecordId, response: Response): (r: Records)
    ensures r.Keys == rs.Keys
  {
    map k | k in rs :: if rs[k].id == id && rs[k].response.None? then rs[k].(response := Some(response)) else rs[k]
  }

  datatype Answer = Missing | Reused | InProgress | Replay(response: Response)

  /** What a caller that did not claim the key is told. */
  function Look(rs: Records, k: Key, hash: string, now: nat): Answer {
    if !Live(rs, k, now) then Missing
    else if rs[k].hash != hash then Reused
    else if rs[k].response.None? then InProgress
    else Replay(rs[k].response.value)
  }

  /** The answer to a request that cannot claim the key: `later` is the time of the lookup. */
  function Turned(rs: Records, k: Key, hash: string, expiresAt: nat, now: nat, later: nat): Result<Response, Code> {
    if expiresAt <= now then Err(InvalidRequest)
    else if !Live(rs, k, now) then Err(NameAlreadyExists)
    else
      match Look(rs, k, hash, later)
      case Replay(response) => Ok(response)
      case Missing => Err(NodeNotFound)
      case _ => Err(IdempotencyKeyReused)
  }

  /** The records after a request that claimed the key, with the response it stored. */
  function Served(rs: Records, k: Key, id: RecordId, hash: string, expiresAt: nat, now: nat,
                  response: Option<Response>): (r: Records)
    ensures r == rs[k := Record(if k in rs then rs[k].id else id, hash, response, now, expiresAt)]
  {
    var claimed := Claimed(rs, k, id, hash, expiresAt, now);
    claimed[k := claimed[k].(response := response)]
  }

  /** Without a claim: a bad expiry, a row id that is taken, a record that expired between
      the statements, or the live record with its response or a conflict. */
  lemma TurnedWhen(rs: Records, k: Key, hash: string, expiresAt: nat, now: nat, later: nat)
    ensures expiresAt <= now ==> Turned(rs, k, hash, expiresAt, now, later) == Err(InvalidRequest)
    ensures now < expiresAt && (k !in rs || rs[k].expiresAt <= now) ==>
      Turned(rs, k, hash, expiresAt, now, later) == Err(NameAlreadyExists)
    ensures k in rs && now < expiresAt && now < rs[k].expiresAt <= later ==>
      Turned(rs, k, hash, expiresAt, now, later) == Err(NodeNotFound)
    ensures k in rs && now < expiresAt && now < rs[k].expiresAt && later < rs[k].expiresAt ==>
      Turned(rs, k, hash, expiresAt, now, later) ==
      if rs[k].hash == hash && rs[k].response.Some? then Ok(rs[k].response.value) else Err(IdempotencyKeyReused)
  {
  }

  /** Before its claim expires, a served key cannot be claimed again, and a repeat is
      answered with the stored response or refused. */
  lemma ServedAnswers(rs: Records, k: Key, id: RecordId, hash: string, stamp: nat, at: nat, response: Option<Response>,
                      other: RecordId, asked: string, expiresAt: nat, now: nat, later: nat)
    requires now < stamp
    ensures var served := Served(rs, k, id, hash, stamp, at, response);
      && !Claimable(served, k, other, expiresAt, now)
      && (now < expiresAt && later < stamp ==>
            Turned(served, k, asked, expiresAt, now, later)
            == if response.Some? && asked == hash then Ok(response.value) else Err(IdempotencyKeyReused))
  {
  }

  datatype Started = Fresh(record: Record) | Replayed(response: Response) | Refused(code: Code)

  class Store {
    var records: Records

    /** Row ids are the table's primary key. */
    ghost predicate Valid()
      reads this
    {
      forall k, l | k in records && l in records && records[k].id == records[l].id :: k == l
    }

    constructor ()
      ensures Valid() && records == map[]
    {
      records := map[];
    }

    method Create(k: Key, id: RecordId, hash: string, expiresAt: nat, now: nat)
      returns (r: Result<Record, Option<Code>>)
      requires Valid()
      modifies this
      ensures Valid()
      ensures r.Ok? <==> Claimable(old(records), k, id, expiresAt, now)
      ensures r.Ok? <==>
        && now < expiresAt && (k in old(records) ==> old(records)[k].expiresAt <= now)
        && (k in old(records) || forall l | l in old(records) :: old(records)[l].id != id)
      ensures r.Ok? ==>
        records == old(records)[k := Record(if k in old(records) then old(records)[k].id else id, hash, None, now,
                                            expiresAt)]
      ensures r.Ok? ==> records == Claimed(old(records), k, id, hash, expiresAt, now) && r.value == records[k]
      ensures r.Err? ==> records == old(records)
      ensures r == Err(None) <==> expiresAt > now && Live(old(records), k, now)
      ensures r == Err(Some(InvalidRequest)) <==> expiresAt <= now
      ensures r.Err? ==> r.error in {None, Some(InvalidRequest), Some(NameAlreadyExists)}
    {
      if expiresAt <= now {
        return Err(Some(InvalidRequest));
      }
      if k in records {
        if records[k].expiresAt > now {
          return Err(None);
        }
        records := records[k := records[k].(hash := hash, response := None, createdAt := now, expiresAt := expiresAt)];
      } else {
        if exists l | l in records :: records[l].id == id {
          return Err(Some(NameAlreadyExists));
        }
        records := records[k := Record(id, hash, None, now, expiresAt)];
      }
      return Ok(records[k]);
    }

    method Get(k: Key, now: nat) returns (r: Option<Record>)
      ensures r == if k in records && now < records[k].expiresAt then Some(records[k]) else None
    {
      if k in records && records[k].expiresAt > now {
        return Some(records[k]);
      }
      return None;
    }

    method Complete(id: RecordId, response: Response) returns (found: bool)
      requires Valid()
      modifies this
      ensures Valid() && records == Completed(old(records), id, response)
      ensures found <==> exists k :: k in old(records) && old(records)[k].id == id && old(records)[k].response.None?
      ensures found ==> exists k :: k in old(records) && old(records)[k].id == id && old(records)[k].response.None?
                          && records == old(records)[k := old(records)[k].(response := Some(response))]
    {
      found := false;
      if k :| k in records && records[k].id == id && records[k].response.None? {
        found := true;
        records := records[k := records[k].(response := Some(response))];
      }
    }

    /** A claim, and for everyone else a conflict or the stored response.  `later` is
        the time of the second statement. */
    method Start(k: Key, id: RecordId, hash: string, expiresAt: nat, now: nat, later: nat) returns (r: Started)
      requires Valid() && now <= later
      modifies this
      ensures Valid()
      ensures r.Fresh? <==> Claimable(old(records), k, id, expiresAt, now)
      ensures r.Fresh? ==> records == Claimed(old(records), k, id, hash, expiresAt, now) && r.record == records[k]
      ensures !r.Fresh? ==> records == old(records)
      ensures expiresAt <= now ==> r == Refused(InvalidRequest)
      ensures now < expiresAt && k in old(records) && now < old(records)[k].expiresAt ==>
        var found := old(records)[k];
        r == if found.expiresAt <= later then Refused(NodeNotFound)
             else if found.hash == hash && found.response.Some? then Replayed(found.response.value)
             else Refused(IdempotencyKeyReused)
      ensures expiresAt > now && !Live(old(records), k, now) && !r.Fresh? ==> r == Refused(NameAlreadyExists)
      ensures expiresAt > now && Live(old(records), k, now) ==>
        match Look(records, k, hash, later)
        case Replay(response) => r == Replayed(response)
        case Missing => r == Refused(NodeNotFound)
        case _ => r == Refused(IdempotencyKeyReused)
    {
      var created := Create(k, id, hash, expiresAt, now);
      match created {
        case Ok(record) => return Fresh(record);
        case Err(Some(code)) => return Refused(code);
        case Err(None) =>
      }
      var found := Get(k, later);
      if found.None? {
        return Refused(NodeNotFound);
      }
      var record := found.value;
      if record.hash != hash {
        return Refused(IdempotencyKeyReused);
      }
      if record.response.None? {
        return Refused(IdempotencyKeyReused);
      }
      return Replayed(record.response.value);
    }
  }
}

/** Any number of concurrent requests over the records: each claims a key, runs, and
    completes the row it claimed or stops without doing so. */
module IdempotencyRuns {
  import opened Prelude
  import opened Domain
  import opened IdempotencyRecords

  type HandlerId = nat

  /** A request that passed the claim, with the row it holds and the expiry it set. */
  datatype Owner = Owner(k: Key, row: RecordId, stamp: nat)

  datatype State = State(now: nat, records: Records, owners: map<HandlerId, Owner>)

  datatype Step =
    | Tick(later: nat)
    | Claim(h: HandlerId, k: Key, id: RecordId, hash: string, expiresAt: nat)
    | Complete(h: HandlerId, response: Response)
    | Stop(h: HandlerId)

  predicate CanStep(s: State, step: Step) {
    match step
    case Tick(later) => s.now <= later
    case Claim(h, k, id, hash, expiresAt) => h !in s.owners && Claimable(s.records, k, id, expiresAt, s.now)
    case Complete(h, response) => h in s.owners
    case Stop(h) => h in s.owners
  }

  function Apply(s: State, step: Step): State
    requires CanStep(s, step)
  {
    match step
    case Tick(later) => s.(now := later)
    case Claim(h, k, id, hash, expiresAt) =>
      var after := Claimed(s.records, k, id, hash, expiresAt, s.now);
      s.(records := after, owners := s.owners[h := Owner(k, after[k].id, expiresAt)])
    case Complete(h, response) =>
      s.(records := Completed(s.records, s.owners[h].row, response), owners := s.owners - {h})
    case Stop(h) => s.(owners := s.owners - {h})
  }

  /** A request can end at any time, with or without its response. */
  lemma RequestsCanEnd(s: State, h: HandlerId, response: Response)
    requires h in s.owners
    ensures CanStep(s, Stop(h)) && CanStep(s, Complete(h, response))
    ensures Apply(s, Stop(h)) == State(s.now, s.records, s.owners - {h})
  {
  }

  predicate Run(states: seq<State>, steps: seq<Step>) {
    && |states| == |steps| + 1 && states[0].records == map[] && states[0].owners == map[]
    && forall i | 0 <= i < |steps| :: CanStep(states[i], steps[i]) && states[i + 1] == Apply(states[i], steps[i])
  }

  lemma StepOf(states: seq<State>, steps: seq<Step>, i: nat)
    requires Run(states, steps) && i < |steps|
    ensures |states| == |steps| + 1 && CanStep(states[i], steps[i]) && states[i + 1] == Apply(states[i], steps[i])
  {
    hide CanStep, Apply;
  }

  predicate Inv(s: State) {
    && (forall k, l | k in s.records && l in s.records && s.records[k].id == s.records[l].id :: k == l)
    && (forall h | h in s.owners :: s.owners[h].k in s.records && s.records[s.owners[h].k].id == s.owners[h].row)
  }

  lemma {:induction false} InvAt(states: seq<State>, steps: seq<Step>, i: nat)
    requires Run(states, steps) && i < |states|
    ensures Inv(states[i])
  {
    if i > 0 {
      InvAt(states, steps, i - 1);
      assert CanStep(states[i - 1], steps[i - 1]);
    }
  }

  predicate Claims(step: Step, k: Key) {
    step.Claim? && step.k == k
  }

  /** Later records of a key are never older: time and expiry only move forward. */
  lemma {:induction false} ExpiryGrows(states: seq<State>, steps: seq<Step>, i: nat, j: nat, k: Key)
    requires Run(states, steps) && i <= j < |states| && k in states[i].records
    ensures k in states[j].records && states[i].records[k].expiresAt <= states[j].records[k].expiresAt
    ensures states[i].records[k].id == states[j].records[k].id && states[i].now <= states[j].now
  {
    if i < j {
      ExpiryGrows(states, steps, i, j - 1, k);
      assert CanStep(states[j - 1], steps[j - 1]);
    }
  }

  /** At most one run passes the claim of a key until the claim expires. */
  lemma ClaimsAreExclusive(states: seq<State>, steps: seq<Step>, i: nat, j: nat, k: Key)
    requires Run(states, steps) && i < j < |steps| && Claims(steps[i], k) && Claims(steps[j], k)
    ensures steps[i].expiresAt <= states[j].now < steps[j].expiresAt
  {
    assert CanStep(states[i], steps[i]) && CanStep(states[j], steps[j]);
    assert states[i + 1].records[k].expiresAt == steps[i].expiresAt;
    ExpiryGrows(states, steps, i + 1, j, k);
  }

  /** Until a claim expires every other caller is refused or given the stored response. */
  lemma OthersWait(states: seq<State>, steps: seq<Step>, i: nat, j: nat, k: Key, hash: string, id: RecordId,
                   expiresAt: nat)
    requires Run(states, steps) && i < j < |states| && i < |steps| && Claims(steps[i], k)
    requires states[j].now < steps[i].expiresAt
    ensures !Claimable(states[j].records, k, id, expiresAt, states[j].now)
    ensures !Look(states[j].records, k, hash, states[j].now).Missing?
    ensures hash != steps[i].hash ==> Look(states[j].records, k, hash, states[j].now).Reused?
  {
    assert CanStep(states[i], steps[i]);
    ExpiryGrows(states, steps, i + 1, j, k);
    var last := LastClaim(states, steps, j, k);
    if last < i {
      assert false;
    } else if i < last {
      ClaimsAreExclusive(states, steps, i, last, k);
      ExpiryGrows(states, steps, last + 1, j, k);
    }
  }

  /** The claim behind a record: the last one of its key. */
  lemma {:induction false} LastClaim(states: seq<State>, steps: seq<Step>, j: nat, k: Key) returns (i: nat)
    requires Run(states, steps) && j < |states| && k in states[j].records
    ensures i < j && Claims(steps[i], k) && (forall n | i < n < j :: !Claims(steps[n], k))
    ensures states[j].records[k].hash == steps[i].hash && states[j].records[k].expiresAt == steps[i].expiresAt
  {
    assert j > 0;
    assert CanStep(states[j - 1], steps[j - 1]);
    if Claims(steps[j - 1], k) {
      i := j - 1;
    } else {
      i := LastClaim(states, steps, j - 1, k);
    }
  }

  /** The claim a running request made. */
  lemma {:induction false} ClaimOf(states: seq<State>, steps: seq<Step>, j: nat, h: HandlerId) returns (i: nat)
    requires Run(states, steps) && j < |states| && h in states[j].owners
    ensures i < j && Claims(steps[i], states[j].owners[h].k) && steps[i].h == h
    ensures states[j].owners[h].stamp == steps[i].expiresAt
    ensures forall n | i < n <= j :: h in states[n].owners && states[n].owners[h] == states[j].owners[h]
  {
    assert j > 0;
    assert CanStep(states[j - 1], steps[j - 1]);
    if steps[j - 1].Claim? && steps[j - 1].h == h {
      i := j - 1;
    } else {
      i := ClaimOf(states, steps, j - 1, h);
    }
  }

  lemma CompletionTouchesItsKey(s: State, h: HandlerId, response: Response, k: Key)
    requires Inv(s) && h in s.owners && k in s.records
    ensures Completed(s.records, s.owners[h].row, response)[k] ==
            if s.owners[h].k == k && s.records[k].response.None? then s.records[k].(response := Some(response))
            else s.records[k]
  {
  }

  predicate Answers(s: State, step: Step, k: Key) {
    && step.Complete? && step.h in s.owners && s.owners[step.h].k == k
    && k in s.records && s.records[k].response.None?
  }

  lemma AnswerStep(s: State, step: Step, k: Key)
    requires CanStep(s, step) && Inv(s)
    requires k in Apply(s, step).records && Apply(s, step).records[k].response.Some?
    ensures !Claims(step, k) && k in s.records
    ensures Apply(s, step).records[k] ==
            if Answers(s, step, k) then s.records[k].(response := Some(step.response)) else s.records[k]
  {
    if step.Complete? {
      CompletionTouchesItsKey(s, step.h, step.response, k);
    }
    hide Inv, Completed;
  }

  /** A stored response was written by a completion after the last claim of the key, so
      a claim that nobody completed is never replayed. */
  lemma {:induction false} AnsweredBy(states: seq<State>, steps: seq<Step>, j: nat, k: Key) returns (m: nat)
    requires Run(states, steps) && j < |states| && k in states[j].records && states[j].records[k].response.Some?
    ensures m < j && Answers(states[m], steps[m], k)
    ensures states[j].records[k] == states[m].records[k].(response := Some(steps[m].response))
    ensures forall n | m <= n < j :: !Claims(steps[n], k)
  {
    assert j > 0;
    StepOf(states, steps, j - 1);
    InvAt(states, steps, j - 1);
    hide *;
    AnswerStep(states[j - 1], steps[j - 1], k);
    if Answers(states[j - 1], steps[j - 1], k) {
      m := j - 1;
    } else {
      m := AnsweredBy(states, steps, j - 1, k);
    }
  }

  /** The request that claimed in step `i` is still the one running as `h` in state `m`. */
  predicate ServesFrom(states: seq<State>, steps: seq<Step>, i: nat, m: nat, h: HandlerId)
    requires i < |steps| && m < |states|
  {
    && steps[i].Claim? && steps[i].h == h
    && forall n | i < n <= m :: h in states[n].owners && states[n].owners[h].stamp == steps[i].expiresAt
  }

  /** Whose response is replayed: `i` is the claim in force, `m` the completion that wrote
      the response. It is the claimant's own exactly when the completing request still
      carries the expiry of the record, and always when it completes before its claim expires. */
  lemma ReplayIsTheClaimants(states: seq<State>, steps: seq<Step>, j: nat, k: Key, hash: string)
    returns (i: nat, m: nat)
    requires Run(states, steps) && j < |states| && Look(states[j].records, k, hash, states[j].now).Replay?
    ensures i < m < j && Claims(steps[i], k) && steps[i].hash == hash && (forall n | i < n < j :: !Claims(steps[n], k))
    ensures Answers(states[m], steps[m], k)
    ensures Look(states[j].records, k, hash, states[j].now) == Replay(steps[m].response)
    ensures ServesFrom(states, steps, i, m, steps[m].h) <==>
            states[m].owners[steps[m].h].stamp == states[m].records[k].expiresAt
    ensures states[m].now < states[m].owners[steps[m].h].stamp ==>
              states[m].owners[steps[m].h].stamp == states[m].records[k].expiresAt
  {
    i := LastClaim(states, steps, j, k);
    m := AnsweredBy(states, steps, j, k);
    var h := steps[m].h;
    var own := ClaimOf(states, steps, m, h);
    assert CanStep(states[i], steps[i]) && CanStep(states[own], steps[own]);
    if own < i {
      ClaimsAreExclusive(states, steps, own, i, k);
      ExpiryGrows(states, steps, i + 1, m, k);
      assert h in states[i].owners;
    } else {
      assert own == i;
    }
  }

  /** A completion that comes after its claim expired is stored as the answer of the
      request that took the key over. */
  lemma LateCompletion(k: Key) returns (states: seq<State>, steps: seq<Step>, own: Response)
    ensures Run(states, steps) && |steps| == 4 && steps[3] == Complete(1, own)
    ensures Claims(steps[0], k) && steps[0].h == 1 && steps[0].hash == "a"
    ensures Claims(steps[2], k) && steps[2].h == 2 && steps[2].hash == "b"
    ensures Look(states[4].records, k, "b", states[4].now) == Replay(own)
  {
    own := Response(201, "{}");
    steps := [Claim(1, k, "row", "a", 5), Tick(6), Claim(2, k, "other", "b", 20), Complete(1, own)];
    var s0 := State(0, map[], map[]);
    var s1 := Apply(s0, steps[0]);
    var s2 := Apply(s1, steps[1]);
    var s3 := Apply(s2, steps[2]);
    var s4 := Apply(s3, steps[3]);
    states := [s0, s1, s2, s3, s4];
  }
}
