/** The middleware around one request: look up, claim, run, renew, and store or clear the outcome. */
module IdempotencyMiddleware {
  import opened Wrappers
  import opened Idempotency

  /** How a bounded Redis command ends: answered, or timed out after, or possibly long before, it runs. */
  datatype Answer = Answered | TimedOut(executed: bool)

  /** Steps of other requests, and of this request's own abandoned claim. */
  predicate Foreign(me: RequestId, a: Action) { a.Tick? || a.LateClaim? || a.r != me }

  lemma {:induction false} OthersLeaveTheRequest(c: Config, s: State, gap: seq<Action>, me: RequestId)
    requires forall a | a in gap :: Foreign(me, a)
    ensures me in Runs(c, s, gap).requests <==> me in s.requests
    ensures me in s.requests ==> Runs(c, s, gap).requests[me] == s.requests[me]
    decreases |gap|
  {
    if gap != [] {
      assert Foreign(me, gap[0]);
      OthersLeaveTheRequest(c, Apply(c, s, gap[0]), gap[1..], me);
    }
  }

  class IdempotencyMiddleware {
    const me: RequestId
    const c: Config
    const env: nat -> seq<Action>
    const oracle: nat -> Answer
    var awaits: nat
    var state: State
    ghost const initial: State
    ghost var trace: seq<Action>

    constructor(me: RequestId, c: Config, env: nat -> seq<Action>, oracle: nat -> Answer, state: State)
      ensures this.me == me && this.c == c && this.env == env && this.oracle == oracle && this.state == initial == state && awaits == 0 && trace == []
    {
      this.me, this.c, this.env, this.oracle, this.state, awaits := me, c, env, oracle, state, 0;
      initial, trace := state, [];
    }

    /** Whatever this request and the others did so far is a run of the claim machine. */
    ghost predicate Valid()
      reads this
    {
      state == Runs(c, initial, trace) && forall k: nat :: forall a | a in env(k) :: Foreign(me, a)
    }

    function Phase(): Idempotency.Phase
      requires me in state.requests
      reads this
    {
      state.requests[me].phase
    }

    function Moved(s: State, phase: Idempotency.Phase): State
      requires me in s.requests
    {
      s.(requests := s.requests[me := Request(s.requests[me].hash, phase)])
    }

    method Await() returns (answer: Answer)
      requires Valid()
      modifies this
      ensures Valid() && state == Runs(c, old(state), env(old(awaits))) && answer == oracle(old(awaits))
      ensures awaits == old(awaits) + 1
      ensures me in state.requests <==> me in old(state).requests
      ensures me in state.requests ==> state.requests[me] == old(state).requests[me]
    {
      OthersLeaveTheRequest(c, state, env(awaits), me);
      RunsAppend(c, initial, trace, env(awaits));
      trace := trace + env(awaits);
      answer := oracle(awaits);
      var gap := env(awaits);
      state := Runs(c, state, gap);
      awaits := awaits + 1;
    }

    /** The change being made is this action of the machine. */
    ghost method Log(a: Action)
      requires Valid()
      modifies this`trace
      ensures Apply(c, state, a) == Runs(c, initial, trace)
    {
      RunsAppend(c, initial, trace, [a]);
      trace := trace + [a];
    }

    method Enter(phase: Idempotency.Phase)
      requires me in state.requests
      modifies this`state
      ensures state == To(old(state), me, phase)
    {
      state := state.(requests := state.requests[me := state.requests[me].(phase := phase)]);
    }

    /** `redis.get`, and the decision on what it shows. */
    method Lookup(first: bool) returns (decided: bool)
      requires Valid() && me in state.requests && Phase() == (if first then Getting else Rechecking)
      modifies this
      ensures Valid() && me in state.requests && state.requests[me].hash == old(state).requests[me].hash
      ensures var met, answered := Runs(c, old(state), env(old(awaits))), oracle(old(awaits)).Answered?;
              state == Apply(c, met, if first then Get(me, answered) else Recheck(me, answered))
      ensures var met := Runs(c, old(state), env(old(awaits)));
              && awaits == old(awaits) + 1 && state == Moved(met, Phase())
              && if oracle(old(awaits)).TimedOut? then Phase() == Rejected(Unavailable)
                 else if Visible(met).Some? then Deserves(Visible(met).value, state.requests[me].hash, Phase())
                 else Phase() == if first then Claiming else Rejected(AlreadyInProgress)
      ensures decided <==> Phase() != Claiming
      ensures decided ==> Phase().Replayed? || Phase().Rejected?
      ensures !first ==> decided
    {
      var answer := Await();
      Log(if first then Get(me, answer.Answered?) else Recheck(me, answer.Answered?));
      if answer.TimedOut? { Enter(Rejected(Unavailable)); return true; }
      var cached := Visible(state);
      if cached.Some? { Enter(ReplayOrReject(cached.value, state.requests[me].hash)); return true; }
      Enter(if first then Claiming else Rejected(AlreadyInProgress));
      decided := !first;
    }

    /** `SET NX`: only an answered "OK" lets the handler run. */
    method TryClaim(claim: Value) returns (answer: Answer, claimed: bool)
      requires Valid() && me in state.requests && Phase() == Claiming && claim == ClaimOf(state, me) && c.completedTtl > 0
      modifies this
      ensures Valid() && me in state.requests && state.requests[me].hash == old(state).requests[me].hash
      ensures var met := Runs(c, old(state), env(old(awaits)));
              state == Apply(c, met, if answer == TimedOut(false) then Abandon(me) else Claim(me, answer.Answered?))
      ensures awaits == old(awaits) + 1 && answer == oracle(old(awaits))
      ensures var met := Runs(c, old(state), env(old(awaits)));
              answer.Answered? ==>
                && claimed == Visible(met).None? && state.now == met.now
                && state.entry == (if claimed then Some(Entry(claim, met.now + Lease(c))) else met.entry)
                && (!claimed ==> state == Moved(met, Rechecking))
      ensures answer.Answered? && claimed ==> Phase() == Running && Owns(state, me)
      ensures answer.Answered? && !claimed ==> Phase() == Rechecking
      ensures answer.TimedOut? ==> Phase() == Rejected(Unavailable) && (!answer.executed ==> me in state.late)
    {
      answer := Await();
      Log(if answer == TimedOut(false) then Abandon(me) else Claim(me, answer.Answered?));
      if answer == TimedOut(false) {
        Enter(Rejected(Unavailable));
        state := state.(late := state.late + {me});
        return answer, false;
      }
      claimed := Visible(state).None?;
      if claimed { state := state.(entry := Some(Entry(claim, state.now + Lease(c)))); }
      Enter(if answer.TimedOut? then Rejected(Unavailable) else if claimed then Running else Rechecking);
    }

    /** A second look-up that finds the key free again leaves it alone. */
    ghost predicate EndsAtRecheck(s: State, from: nat, hash: Hash, phase: Idempotency.Phase) {
      var met := Runs(c, s, env(from));
      if oracle(from).TimedOut? then phase == Rejected(Unavailable)
      else if Visible(met).Some? then Deserves(Visible(met).value, hash, phase)
      else phase == Rejected(AlreadyInProgress)
    }

    /** A free key is claimed, a lost race is looked up again. */
    ghost predicate EndsAtClaim(s: State, from: nat, hash: Hash, phase: Idempotency.Phase) {
      var met := Runs(c, s, env(from));
      if oracle(from).TimedOut? then phase == Rejected(Unavailable)
      else if Visible(met).None? then phase == Running
      else me in met.requests && EndsAtRecheck(Moved(met, Rechecking), from + 1, hash, phase)
    }

    /** A stored value is answered as it deserves, a free key is worth a claim. */
    ghost predicate EndsAtLookup(s: State, from: nat, hash: Hash, phase: Idempotency.Phase) {
      var met := Runs(c, s, env(from));
      if oracle(from).TimedOut? then phase == Rejected(Unavailable)
      else if Visible(met).Some? then Deserves(Visible(met).value, hash, phase)
      else me in met.requests && EndsAtClaim(Moved(met, Claiming), from + 1, hash, phase)
    }

    /** From the claim on. */
    method ClaimKey(hash: Hash) returns (admitted: bool)
      requires Valid() && me in state.requests && state.requests[me] == Request(hash, Claiming) && c.completedTtl > 0
      modifies this
      ensures Valid() && me in state.requests && state.requests[me].hash == hash
      ensures admitted <==> Phase() == Running
      ensures admitted ==> Owns(state, me) && state.entry.value.expiresAt == state.now + Lease(c)
      ensures !admitted ==> Phase().Replayed? || Phase().Rejected?
      ensures EndsAtClaim(old(state), old(awaits), hash, Phase())
    {
      OthersLeaveTheRequest(c, state, env(awaits), me);
      var answer, claimed := TryClaim(InProgress(hash, me));
      if answer.TimedOut? || claimed { return answer.Answered?; }
      var _ := Lookup(false);
      admitted := false;
    }

    /**
     The handler is admitted exactly when the key is free at an answered look-up and at the answered
     claim after it, and then it owns a claim of a whole lease; everyone else is answered here, as the
     value deserves that is stored when they look.
     */
    method Handle(hash: Hash) returns (admitted: bool)
      requires Valid() && me !in state.requests && c.completedTtl > 0
      modifies this
      ensures Valid() && me in state.requests && state.requests[me].hash == hash
      ensures admitted <==> Phase() == Running
      ensures admitted ==> Owns(state, me) && state.entry.value.expiresAt == state.now + Lease(c)
      ensures !admitted ==> Phase().Replayed? || Phase().Rejected?
      ensures EndsAtLookup(old(state).(requests := old(state).requests[me := Request(hash, Getting)]), old(awaits), hash, Phase())
    {
      Log(Arrive(me, hash));
      state := state.(requests := state.requests[me := Request(hash, Getting)]);
      OthersLeaveTheRequest(c, state, env(awaits), me);
      var decided := Lookup(true);
      if decided { return false; }
      admitted := ClaimKey(hash);
    }

    /** The lease timer's script; it reports whether the claim is still this request's. */
    method RenewIfOwner(claim: Value) returns (renewed: bool)
      requires Valid() && me in state.requests && claim == ClaimOf(state, me)
      modifies this`state, this`trace
      ensures Valid()
      ensures renewed == Owns(old(state), me) && state == Apply(c, old(state), Renew(me))
      ensures state == if !renewed then old(state)
                       else old(state).(entry := Some(Entry(claim, old(state).now + Lease(c))))
    {
      Log(Renew(me));
      renewed := Visible(state) == Some(claim);
      if renewed { state := state.(entry := Some(Entry(state.entry.value.value, state.now + Lease(c)))); }
    }

    method CompleteIfOwner(claim: Value, outcome: Value)
      requires Valid() && HasResponded(state, me) && Successful(Phase().status) && claim == ClaimOf(state, me) && outcome == Outcome(state, me)
      modifies this`state, this`trace
      ensures Valid() && state == Apply(c, old(state), Complete(me))
    {
      Log(Complete(me));
      if Visible(state) == Some(claim) { state := state.(entry := Some(Entry(outcome, state.now + c.completedTtl))); }
    }

    method DeleteIfOwner(claim: Value)
      requires Valid() && HasResponded(state, me) && !Successful(Phase().status) && claim == ClaimOf(state, me)
      modifies this`state, this`trace
      ensures Valid() && state == Apply(c, old(state), Delete(me))
    {
      Log(Delete(me));
      if Visible(state) == Some(claim) { state := state.(entry := None); }
    }

    /** `res.json`: the response is fixed at once, the script runs later, and only on the own claim. */
    method Json(hash: Hash, status: nat, data: string) returns (ghost atScript: State)
      requires Valid() && me in state.requests && state.requests[me] == Request(hash, Running)
      modifies this
      ensures Valid() && In(state, me, Responded(status, data))
      ensures atScript == Runs(c, Apply(c, old(state), Respond(me, status, data)), env(old(awaits)))
      ensures state == Apply(c, atScript, if 200 <= status < 300 then Complete(me) else Delete(me))
      ensures !Owns(atScript, me) ==> state == atScript
      ensures Owns(atScript, me) && 200 <= status < 300 ==>
                state.entry == Some(Entry(Completed(hash, status, data), state.now + c.completedTtl)) && state.now == atScript.now
      ensures Owns(atScript, me) && !(200 <= status < 300) ==> Visible(state) == None
    {
      Log(Respond(me, status, data));
      Enter(Responded(status, data));
      var _ := Await();
      atScript := state;
      var claim := InProgress(hash, me);
      if 200 <= status < 300 {
        CompleteIfOwner(claim, Completed(hash, status, data));
      } else {
        DeleteIfOwner(claim);
      }
    }
  }
}
