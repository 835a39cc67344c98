/**
 The Redis idempotency claim of one cache key: requests race to claim it, renew it while their
 handler runs, and complete or delete it with scripts that compare the exact claimed value.
 Commands may be answered late or never, and a claim given up on may still be executed later.
 */
module Idempotency {
  import opened Wrappers

  type RequestId = nat
  type Hash = string

  /** `IDEMPOTENCY_TTL`, and the claim's lease, both in milliseconds. */
  datatype Config = Config(completedTtl: nat)

  function Lease(c: Config): nat { if c.completedTtl < 60_000 then c.completedTtl else 60_000 }

  datatype Value =
    | InProgress(requestHash: Hash, owner: RequestId)
    | Completed(requestHash: Hash, status: nat, data: string)

  datatype Entry = Entry(value: Value, expiresAt: nat)

  datatype Reason = DifferentRequest | AlreadyInProgress | Unavailable

  datatype Phase =
    | Getting
    | Claiming
    | Rechecking
    | Running
    | Responded(status: nat, data: string)
    | Died
    | Replayed(status: nat, data: string)
    | Rejected(reason: Reason)

  datatype Request = Request(hash: Hash, phase: Phase)

  datatype State = State(entry: Option<Entry>, now: nat, requests: map<RequestId, Request>, late: set<RequestId>)

  datatype Action =
    | Arrive(r: RequestId, hash: Hash)
    | Get(r: RequestId, answered: bool)
    | Claim(r: RequestId, answered: bool)
    | Abandon(r: RequestId)
    | LateClaim(r: RequestId)
    | Recheck(r: RequestId, answered: bool)
    | Renew(r: RequestId)
    | Respond(r: RequestId, status: nat, data: string)
    | Die(r: RequestId)
    | Complete(r: RequestId)
    | Delete(r: RequestId)
    | Tick(elapsed: nat)

  predicate Successful(status: nat) { 200 <= status < 300 }

  /** What Redis shows: an expired entry is gone. */
  function Visible(s: State): Option<Value> {
    if s.entry.Some? && s.now < s.entry.value.expiresAt then Some(s.entry.value.value) else None
  }

  function ClaimOf(s: State, r: RequestId): Value
    requires r in s.requests
  {
    InProgress(s.requests[r].hash, r)
  }

  function ReplayOrReject(cached: Value, hash: Hash): Phase {
    if cached.requestHash != hash then Rejected(DifferentRequest)
    else if cached.InProgress? then Rejected(AlreadyInProgress)
    else Replayed(cached.status, cached.data)
  }

  function To(s: State, r: RequestId, phase: Phase): State
    requires r in s.requests
  {
    s.(requests := s.requests[r := s.requests[r].(phase := phase)])
  }

  predicate In(s: State, r: RequestId, phase: Phase) { r in s.requests && s.requests[r].phase == phase }

  /** `SET key value EX ttl NX`. */
  function SetNx(c: Config, s: State, r: RequestId): State
    requires r in s.requests
  {
    if Visible(s).Some? then s else s.(entry := Some(Entry(ClaimOf(s, r), s.now + Lease(c))))
  }

  predicate Owns(s: State, r: RequestId) { r in s.requests && Visible(s) == Some(ClaimOf(s, r)) }

  function DoGet(s: State, r: RequestId, answered: bool): State
    requires In(s, r, Getting)
  {
    if !answered then To(s, r, Rejected(Unavailable))
    else if Visible(s).Some? then To(s, r, ReplayOrReject(Visible(s).value, s.requests[r].hash))
    else To(s, r, Claiming)
  }

  function DoClaim(c: Config, s: State, r: RequestId, answered: bool): State
    requires In(s, r, Claiming)
  {
    To(SetNx(c, s, r), r, if !answered then Rejected(Unavailable) else if Visible(s).None? then Running else Rechecking)
  }

  function DoRecheck(s: State, r: RequestId, answered: bool): State
    requires In(s, r, Rechecking)
  {
    To(s, r, if !answered then Rejected(Unavailable)
             else if Visible(s).Some? then ReplayOrReject(Visible(s).value, s.requests[r].hash)
             else Rejected(AlreadyInProgress))
  }

  function DoRenew(c: Config, s: State, r: RequestId): State {
    if Owns(s, r) then s.(entry := Some(Entry(ClaimOf(s, r), s.now + Lease(c)))) else s
  }

  predicate HasResponded(s: State, r: RequestId) { r in s.requests && s.requests[r].phase.Responded? }

  function Outcome(s: State, r: RequestId): Value
    requires HasResponded(s, r)
  {
    Completed(s.requests[r].hash, s.requests[r].phase.status, s.requests[r].phase.data)
  }

  function DoComplete(c: Config, s: State, r: RequestId): State {
    if HasResponded(s, r) && Successful(s.requests[r].phase.status) && Owns(s, r)
    then s.(entry := Some(Entry(Outcome(s, r), s.now + c.completedTtl))) else s
  }

  function DoDelete(s: State, r: RequestId): State {
    if HasResponded(s, r) && !Successful(s.requests[r].phase.status) && Owns(s, r) then s.(entry := None) else s
  }

  function Apply(c: Config, s: State, a: Action): State {
    match a
    case Arrive(r, hash) => if r in s.requests then s else s.(requests := s.requests[r := Request(hash, Getting)])
    case Get(r, answered) => if In(s, r, Getting) then DoGet(s, r, answered) else s
    case Claim(r, answered) => if In(s, r, Claiming) then DoClaim(c, s, r, answered) else s
    case Abandon(r) => if In(s, r, Claiming) then To(s, r, Rejected(Unavailable)).(late := s.late + {r}) else s
    case LateClaim(r) => if r in s.late && r in s.requests then SetNx(c, s, r).(late := s.late - {r}) else s
    case Recheck(r, answered) => if In(s, r, Rechecking) then DoRecheck(s, r, answered) else s
    case Renew(r) => DoRenew(c, s, r)
    case Respond(r, status, data) => if In(s, r, Running) then To(s, r, Responded(status, data)) else s
    case Die(r) => if In(s, r, Running) then To(s, r, Died) else s
    case Complete(r) => DoComplete(c, s, r)
    case Delete(r) => DoDelete(s, r)
    case Tick(elapsed) => s.(now := s.now + elapsed)
  }

  function Runs(c: Config, s: State, actions: seq<Action>): State
    decreases |actions|
  {
    if actions == [] then s else Runs(c, Apply(c, s, actions[0]), actions[1..])
  }

  lemma {:induction false} RunsAppend(c: Config, s: State, before: seq<Action>, after: seq<Action>)
    ensures Runs(c, s, before + after) == Runs(c, Runs(c, s, before), after)
    ensures |after| == 1 ==> Runs(c, s, before + after) == Apply(c, Runs(c, s, before), after[0])
    decreases |before|
  {
    if before == [] {
      assert before + after == after;
    } else {
      assert (before + after)[0] == before[0] && (before + after)[1..] == before[1..] + after;
      RunsAppend(c, Apply(c, s, before[0]), before[1..], after);
    }
  }

  const EMPTY := State(None, 0, map[], {})

  // ---------- ownership ----------

  predicate Script(a: Action) { a.Renew? || a.Complete? || a.Delete? }

  /** A stale owner's scripts change nothing; an owner's act on exactly its own claim. */
  lemma StaleScriptsAreHarmless(c: Config, s: State, a: Action)
    requires Script(a)
    ensures !Owns(s, a.r) ==> Apply(c, s, a) == s
    ensures Apply(c, s, a).requests == s.requests
    ensures Owns(s, a.r) ==> forall r :: r != a.r ==> !Owns(s, r)
  {
  }

  /** A completed record stays as it is until it expires. */
  lemma CompletedIsImmutable(c: Config, s: State, a: Action)
    requires Visible(s).Some? && Visible(s).value.Completed?
    ensures Apply(c, s, a).entry == s.entry
    ensures Apply(c, s, a).now < s.entry.value.expiresAt ==> Visible(Apply(c, s, a)) == Visible(s)
  {
  }

  lemma {:induction false} CompletedLivesItsTime(c: Config, s: State, actions: seq<Action>)
    requires Visible(s).Some? && Visible(s).value.Completed?
    requires Runs(c, s, actions).now < s.entry.value.expiresAt
    ensures Runs(c, s, actions).entry == s.entry && Visible(Runs(c, s, actions)) == Visible(s)
    decreases |actions|
  {
    if actions != [] {
      var s' := Apply(c, s, actions[0]);
      TimeMoves(c, s', actions[1..]);
      CompletedIsImmutable(c, s, actions[0]);
      CompletedLivesItsTime(c, s', actions[1..]);
    }
  }

  lemma {:induction false} TimeMoves(c: Config, s: State, actions: seq<Action>)
    ensures s.now <= Runs(c, s, actions).now
    decreases |actions|
  {
    if actions != [] { TimeMoves(c, Apply(c, s, actions[0]), actions[1..]); }
  }

  // ---------- replays ----------

  /** The response was produced by a handler run for a request with this hash. */
  ghost predicate Produced(s: State, hash: Hash, status: nat, data: string) {
    exists r :: r in s.requests && s.requests[r] == Request(hash, Responded(status, data)) && Successful(status)
  }

  ghost predicate Honest(s: State) {
    && (s.entry.Some? && s.entry.value.value.Completed? ==>
          var v := s.entry.value.value; Produced(s, v.requestHash, v.status, v.data))
    && forall r :: r in s.requests && s.requests[r].phase.Replayed? ==>
         Produced(s, s.requests[r].hash, s.requests[r].phase.status, s.requests[r].phase.data)
  }

  lemma ProducedLasts(c: Config, s: State, a: Action, hash: Hash, status: nat, data: string)
    requires Produced(s, hash, status, data)
    ensures Produced(Apply(c, s, a), hash, status, data)
  {
    var r :| r in s.requests && s.requests[r] == Request(hash, Responded(status, data)) && Successful(status);
    RespondedIsFinal(c, s, a, r);
    assert Apply(c, s, a).requests[r] == s.requests[r];
  }

  lemma RespondedIsFinal(c: Config, s: State, a: Action, r: RequestId)
    requires r in s.requests && (s.requests[r].phase.Responded? || s.requests[r].phase.Replayed?)
    ensures r in Apply(c, s, a).requests && Apply(c, s, a).requests[r] == s.requests[r]
  {
  }

  lemma StepStaysHonest(c: Config, s: State, a: Action)
    requires Honest(s)
    ensures Honest(Apply(c, s, a))
  {
    var s' := Apply(c, s, a);
    if s'.entry.Some? && s'.entry.value.value.Completed? {
      var v := s'.entry.value.value;
      if s'.entry == s.entry { ProducedLasts(c, s, a, v.requestHash, v.status, v.data); }
      else { assert s'.requests[a.r] == Request(v.requestHash, Responded(v.status, v.data)); }
    }
    forall r | r in s'.requests && s'.requests[r].phase.Replayed?
      ensures Produced(s', s'.requests[r].hash, s'.requests[r].phase.status, s'.requests[r].phase.data)
    {
      if r in s.requests && s.requests[r].phase.Replayed? {
        RespondedIsFinal(c, s, a, r);
        ProducedLasts(c, s, a, s.requests[r].hash, s.requests[r].phase.status, s.requests[r].phase.data);
      } else {
        var v := Visible(s).value;
        ProducedLasts(c, s, a, v.requestHash, v.status, v.data);
      }
    }
  }

  lemma {:induction false} RunsStayHonest(c: Config, s: State, actions: seq<Action>)
    requires Honest(s)
    ensures Honest(Runs(c, s, actions))
    decreases |actions|
  {
    if actions != [] {
      StepStaysHonest(c, s, actions[0]);
      RunsStayHonest(c, Apply(c, s, actions[0]), actions[1..]);
    }
  }

  /** Every replayed response is the successful response of a handler run for the same hash. */
  lemma ReplaysAreGenuine(c: Config, actions: seq<Action>, r: RequestId)
    requires r in Runs(c, EMPTY, actions).requests && Runs(c, EMPTY, actions).requests[r].phase.Replayed?
    ensures var s := Runs(c, EMPTY, actions);
            exists q :: q in s.requests && s.requests[q].hash == s.requests[r].hash && Successful(s.requests[r].phase.status)
                        && s.requests[q].phase == Responded(s.requests[r].phase.status, s.requests[r].phase.data)
  {
    RunsStayHonest(c, EMPTY, actions);
  }

  /** What a stored value means for a repeated request: its own response, or why it has to go. */
  predicate Deserves(stored: Value, hash: Hash, phase: Phase) {
    match stored
    case Completed(stamp, status, data) => phase == if stamp == hash then Replayed(status, data) else Rejected(DifferentRequest)
    case InProgress(stamp, _) => phase == Rejected(if stamp == hash then AlreadyInProgress else DifferentRequest)
  }

  /** Both look-ups answer what the visible value deserves; a free key lets the first one go on to its claim. */
  lemma LookUpsAreAnswered(c: Config, s: State, r: RequestId)
    requires r in s.requests && (s.requests[r].phase.Getting? || s.requests[r].phase.Rechecking?)
    ensures var first := s.requests[r].phase.Getting?;
            var s' := Apply(c, s, if first then Get(r, true) else Recheck(r, true));
            && s' == To(s, r, s'.requests[r].phase)
            && if Visible(s).Some? then Deserves(Visible(s).value, s.requests[r].hash, s'.requests[r].phase)
               else s'.requests[r].phase == if first then Claiming else Rejected(AlreadyInProgress)
  {
  }

  /** An answered claim of a free key starts the handler and holds the key for a lease of at most a minute. */
  lemma FreeKeysAreClaimed(c: Config, s: State, r: RequestId)
    requires In(s, r, Claiming)
    ensures var s' := Apply(c, s, Claim(r, true));
            if Visible(s).None? then
              && In(s', r, Running) && s'.now == s.now
              && s'.entry == Some(Entry(InProgress(s.requests[r].hash, r), s.now + (if c.completedTtl <= 60_000 then c.completedTtl else 60_000)))
            else In(s', r, Rechecking) && s'.entry == s.entry
  {
  }

  lemma {:induction false} ReplayedIsFinal(c: Config, s: State, actions: seq<Action>, r: RequestId)
    requires r in s.requests && s.requests[r].phase.Replayed?
    ensures r in Runs(c, s, actions).requests && Runs(c, s, actions).requests[r] == s.requests[r]
    decreases |actions|
  {
    if actions != [] {
      RespondedIsFinal(c, s, actions[0], r);
      ReplayedIsFinal(c, Apply(c, s, actions[0]), actions[1..], r);
    }
  }

  /**
   Once a response is stored, whatever runs meanwhile, every request with its hash that looks the
   key up before the record expires is answered with exactly that response, for good; a request
   with another hash is refused as different.
   */
  lemma StoredResponsesAreReplayed(c: Config, s: State, before: seq<Action>, r: RequestId, after: seq<Action>)
    requires Visible(s).Some? && Visible(s).value.Completed?
    requires var met := Runs(c, s, before);
             met.now < s.entry.value.expiresAt && r in met.requests && (met.requests[r].phase.Getting? || met.requests[r].phase.Rechecking?)
    ensures var met := Runs(c, s, before);
            var hash, stored := met.requests[r].hash, Visible(s).value;
            var looked := Apply(c, met, if met.requests[r].phase.Getting? then Get(r, true) else Recheck(r, true));
            if hash == stored.requestHash then
              r in Runs(c, looked, after).requests && Runs(c, looked, after).requests[r] == Request(hash, Replayed(stored.status, stored.data))
            else In(looked, r, Rejected(DifferentRequest))
  {
    var met := Runs(c, s, before);
    CompletedLivesItsTime(c, s, before);
    LookUpsAreAnswered(c, met, r);
    var looked := Apply(c, met, if met.requests[r].phase.Getting? then Get(r, true) else Recheck(r, true));
    if met.requests[r].hash == Visible(s).value.requestHash { ReplayedIsFinal(c, looked, after, r); }
  }

  // ---------- renewals ----------

  predicate Ends(a: Action, r: RequestId) { (a.Complete? || a.Delete?) && a.r == r }

  /** Until it expires, only the owner's own outcome ends a claim, and no one else's handler starts. */
  lemma {:induction false} ClaimsLast(c: Config, s: State, gap: seq<Action>, r: RequestId)
    requires Owns(s, r) && Runs(c, s, gap).now < s.entry.value.expiresAt <= s.now + Lease(c) && forall a :: a in gap ==> !Ends(a, r)
    ensures var s' := Runs(c, s, gap);
            && Owns(s', r) && s.entry.value.expiresAt <= s'.entry.value.expiresAt
            && forall q :: q != r && In(s', q, Running) ==> In(s, q, Running)
    decreases |gap|
  {
    if gap != [] {
      TimeMoves(c, Apply(c, s, gap[0]), gap[1..]);
      ClaimsLastAStep(c, s, gap[0], r);
      ClaimsLast(c, Apply(c, s, gap[0]), gap[1..], r);
    }
  }

  lemma ClaimsLastAStep(c: Config, s: State, a: Action, r: RequestId)
    requires Owns(s, r) && !Ends(a, r) && Apply(c, s, a).now < s.entry.value.expiresAt <= s.now + Lease(c)
    ensures var s' := Apply(c, s, a);
            && Owns(s', r) && s'.entry.value.expiresAt <= s'.now + Lease(c) && s.entry.value.expiresAt <= s'.entry.value.expiresAt
            && forall q :: q != r && In(s', q, Running) ==> In(s, q, Running)
  {
  }

  /** The owner's renewal gives its claim a whole lease from now. */
  lemma RenewalsRestartTheLease(c: Config, s: State, r: RequestId)
    requires Owns(s, r)
    ensures Apply(c, s, Renew(r)) == s.(entry := Some(Entry(InProgress(s.requests[r].hash, r), s.now + (if c.completedTtl <= 60_000 then c.completedTtl else 60_000))))
  {
  }

  /** Stretches of the run, each followed by a renewal. */
  function Renewing(c: Config, s: State, gaps: seq<seq<Action>>, r: RequestId): State
    decreases |gaps|
  {
    if gaps == [] then s else Renewing(c, Apply(c, Runs(c, s, gaps[0]), Renew(r)), gaps[1..], r)
  }

  /** No stretch is as long as the lease, and the owner does not finish in it. */
  predicate Timely(c: Config, s: State, gaps: seq<seq<Action>>, r: RequestId)
    decreases |gaps|
  {
    gaps == []
    || (&& Runs(c, s, gaps[0]).now < s.now + Lease(c) && (forall a :: a in gaps[0] ==> !Ends(a, r))
        && Timely(c, Apply(c, Runs(c, s, gaps[0]), Renew(r)), gaps[1..], r))
  }

  /** A claim renewed closer than its lease never expires: its owner keeps it, and no other handler starts, however long it takes. */
  lemma {:induction false} RenewedClaimsAreKept(c: Config, s: State, gaps: seq<seq<Action>>, r: RequestId)
    requires Owns(s, r) && s.entry.value.expiresAt == s.now + Lease(c) && Timely(c, s, gaps, r)
    ensures var s' := Renewing(c, s, gaps, r);
            Owns(s', r) && forall q :: q != r && In(s', q, Running) ==> In(s, q, Running)
    decreases |gaps|
  {
    if gaps != [] {
      var met := Runs(c, s, gaps[0]);
      ClaimsLast(c, s, gaps[0], r);
      RenewalsRestartTheLease(c, met, r);
      RenewedClaimsAreKept(c, Apply(c, met, Renew(r)), gaps[1..], r);
    }
  }

  // ---------- mutual exclusion ----------

  /** The clock does not run past the claim of a handler that is still running. */
  predicate InTime(s: State, a: Action) {
    a.Tick? && s.entry.Some? && s.entry.value.value.InProgress? && In(s, s.entry.value.value.owner, Running) ==>
      s.now + a.elapsed < s.entry.value.expiresAt
  }

  predicate AllInTime(c: Config, s: State, actions: seq<Action>)
    decreases |actions|
  {
    actions == [] || (InTime(s, actions[0]) && AllInTime(c, Apply(c, s, actions[0]), actions[1..]))
  }

  /** A running handler owns the visible claim. */
  ghost predicate Exclusive(s: State) {
    forall r :: In(s, r, Running) ==> Owns(s, r)
  }

  lemma StepStaysExclusive(c: Config, s: State, a: Action)
    requires c.completedTtl > 0 && Exclusive(s) && InTime(s, a)
    ensures Exclusive(Apply(c, s, a))
  {
    var s' := Apply(c, s, a);
    forall r | In(s', r, Running) ensures Owns(s', r) {
      if In(s, r, Running) { assert Owns(s, r); }
    }
  }

  lemma {:induction false} RunsStayExclusive(c: Config, s: State, actions: seq<Action>)
    requires c.completedTtl > 0 && Exclusive(s) && AllInTime(c, s, actions)
    ensures Exclusive(Runs(c, s, actions))
    decreases |actions|
  {
    if actions != [] {
      StepStaysExclusive(c, s, actions[0]);
      RunsStayExclusive(c, Apply(c, s, actions[0]), actions[1..]);
    }
  }

  /**
   When no claim expires under a running handler, at most one handler runs per key, and none runs
   while a completed record lives.
   */
  lemma OneHandlerAtATime(c: Config, actions: seq<Action>, q: RequestId, r: RequestId)
    requires c.completedTtl > 0 && AllInTime(c, EMPTY, actions)
    ensures var s := Runs(c, EMPTY, actions);
            && (In(s, q, Running) && In(s, r, Running) ==> q == r)
            && (In(s, r, Running) ==> Visible(s).Some? && Visible(s).value.InProgress?)
  {
    RunsStayExclusive(c, EMPTY, actions);
  }

  /** The condition cannot be dropped: once a claim expires under its handler, a second one starts. */
  lemma ExpiryLetsTwoRun(c: Config, s: State, q: RequestId, r: RequestId, hash: Hash)
    requires In(s, q, Running) && r !in s.requests && Visible(s).None?
    ensures var s' := Runs(c, s, [Arrive(r, hash), Get(r, true), Claim(r, true)]);
            In(s', q, Running) && In(s', r, Running)
  {
    var s1 := Apply(c, s, Arrive(r, hash));
    var s2 := Apply(c, s1, Get(r, true));
    assert Runs(c, s1, [Get(r, true), Claim(r, true)]) == Runs(c, s2, [Claim(r, true)]);
    assert Runs(c, s2, [Claim(r, true)]) == Runs(c, Apply(c, s2, Claim(r, true)), []);
  }

  /** And it happens from the start: two requests, one lease that runs out. */
  lemma TwoHandlersRun(c: Config, q: RequestId, r: RequestId, hash: Hash)
    requires q != r
    ensures var s := Runs(c, EMPTY, [Arrive(q, hash), Get(q, true), Claim(q, true), Tick(Lease(c))]
                                    + [Arrive(r, hash), Get(r, true), Claim(r, true)]);
            In(s, q, Running) && In(s, r, Running)
  {
    var first := [Arrive(q, hash), Get(q, true), Claim(q, true), Tick(Lease(c))];
    var s1 := Apply(c, EMPTY, Arrive(q, hash));
    var s2 := Apply(c, s1, Get(q, true));
    var s3 := Apply(c, s2, Claim(q, true));
    var s4 := Apply(c, s3, Tick(Lease(c)));
    assert Runs(c, EMPTY, first) == Runs(c, s1, [Get(q, true), Claim(q, true), Tick(Lease(c))]) by {
      assert first[1..] == [Get(q, true), Claim(q, true), Tick(Lease(c))];
    }
    assert Runs(c, s1, [Get(q, true), Claim(q, true), Tick(Lease(c))]) == Runs(c, s2, [Claim(q, true), Tick(Lease(c))]);
    assert Runs(c, s2, [Claim(q, true), Tick(Lease(c))]) == Runs(c, s3, [Tick(Lease(c))]);
    assert Runs(c, s3, [Tick(Lease(c))]) == Runs(c, s4, []);
    assert In(s4, q, Running) && Visible(s4).None? && r !in s4.requests;
    RunsAppend(c, EMPTY, first, [Arrive(r, hash), Get(r, true), Claim(r, true)]);
    ExpiryLetsTwoRun(c, s4, q, r, hash);
  }
}
