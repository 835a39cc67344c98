/**
 `refreshToken` as a program: three statements of its own on the token table, with logins,
 logouts, revocations and other refreshes running before each of them.
 */
module TokenService {
  import opened Wrappers
  import opened RefreshTokens

  /** The unguessable token generated for a rotation, and its lifetime. */
  datatype Answer = Answer(successor: TokenId, ttl: nat)

  predicate Foreign(me: CallId, a: Action) { (a.Advance? ==> a.call != me) && (a.Refresh? ==> a.call != me) }

  lemma {:induction false} OthersLeaveTheCall(s: State, gap: seq<Action>, me: CallId)
    requires Inv(s) && forall a | a in gap :: Foreign(me, a)
    ensures Inv(Runs(s, gap)) && (me in Runs(s, gap).calls <==> me in s.calls)
    ensures me in s.calls ==> Runs(s, gap).calls[me] == s.calls[me]
    decreases |gap|
  {
    if gap != [] {
      StepKeepsInv(s, gap[0]);
      assert Foreign(me, gap[0]);
      OthersLeaveTheCall(Apply(s, gap[0]), gap[1..], me);
    }
  }

  /** The rotation step, statement by statement. */
  lemma RotationOutcome(s: State, me: CallId, id: TokenId, userId: UserId, family: FamilyId, answer: Answer)
    requires me in s.calls && s.calls[me] == Rotating(id, userId, family)
    ensures Apply(s, Advance(me, answer.successor, answer.ttl)) ==
              if !CanRotate(s.table, id) then s.(calls := s.calls[me := Refused(AlreadyUsed)])
              else if answer.successor in s.usedTokens then s.(calls := s.calls[me := Refused(Unexpected)])
              else
                var revoked := s.table[id := s.table[id].(revokedAt := Some(s.now))];
                s.(table := revoked[answer.successor := Row(userId, family, s.now, s.now + answer.ttl, None)],
                   usedTokens := s.usedTokens + {answer.successor}, rotated := s.rotated + [id],
                   calls := s.calls[me := Refreshed(id, answer.successor)])
  {
    if CanRotate(s.table, id) {
      assert Revoke(s.table, {id}, s.now) == s.table[id := s.table[id].(revokedAt := Some(s.now))];
    }
  }

  predicate IsSpent(table: Table, t: TokenId) { t in table && !Live(table, t) }

  class TokenService {
    const me: CallId
    const env: nat -> seq<Action>
    const oracle: nat -> Answer
    var awaits: nat
    var state: State
    ghost const initial: State
    ghost var trace: seq<Action>

    constructor(me: CallId, env: nat -> seq<Action>, oracle: nat -> Answer, state: State)
      ensures this.me == me && this.env == env && this.oracle == oracle && this.state == initial == state && awaits == 0 && trace == []
    {
      this.me, this.env, this.oracle, this.state, awaits := me, env, oracle, state, 0;
      initial, trace := state, [];
    }

    /** Whatever this call and everyone else did so far is a run of the token machine. */
    ghost predicate Valid()
      reads this
    {
      Inv(state) && state == Runs(initial, trace) && forall k: nat :: forall a | a in env(k) :: Foreign(me, a)
    }

    function Phase(): RefreshTokens.Phase
      requires me in state.calls
      reads this
    {
      state.calls[me]
    }

    method Await() returns (answer: Answer)
      requires Valid() && me in state.calls
      modifies this
      ensures Valid() && me in state.calls && Phase() == old(Phase())
      ensures state == Runs(old(state), env(old(awaits))) && awaits == old(awaits) + 1 && answer == oracle(old(awaits))
    {
      OthersLeaveTheCall(state, env(awaits), me);
      RunsAppend(initial, trace, env(awaits));
      answer := oracle(awaits);
      var gap := env(awaits);
      trace := trace + gap;
      state := Runs(state, gap);
      awaits := awaits + 1;
    }

    /** The next change of the state is this action of the machine. */
    ghost method Log(a: Action)
      requires Valid()
      modifies this`trace
      ensures Inv(Apply(state, a)) && Apply(state, a) == Runs(initial, trace)
    {
      StepKeepsInv(state, a);
      RunsAppend(initial, trace, [a]);
      trace := trace + [a];
    }

    /** A read, whose answer only moves the call on. */
    method Move(phase: RefreshTokens.Phase, ghost answer: Answer)
      requires Valid() && me in state.calls && !Phase().Rotating? && !Phase().Revoking?
      requires state.(calls := state.calls[me := phase]) == Apply(state, Advance(me, answer.successor, answer.ttl))
      modifies this`state, this`trace
      ensures Valid() && me in state.calls && Phase() == phase && state == old(state).(calls := old(state).calls[me := phase])
    {
      Log(Advance(me, answer.successor, answer.ttl));
      state := state.(calls := state.calls[me := phase]);
    }

    /** Two statements in one transaction: both happen, or neither does. */
    method RotateRefreshToken(id: TokenId, userId: UserId, family: FamilyId, answer: Answer) returns (rotated: Result<bool, AuthError>)
      requires Valid() && me in state.calls && Phase() == Rotating(id, userId, family)
      modifies this`state, this`trace
      ensures Valid() && me in state.calls && state == Apply(old(state), Advance(me, answer.successor, answer.ttl))
      ensures rotated == if !CanRotate(old(state).table, id) then Success(false)
                         else if answer.successor in old(state).usedTokens then Failure(Unexpected) else Success(true)
      ensures var table := old(state).table;
              state.table == if rotated != Success(true) then table
                             else table[id := table[id].(revokedAt := Some(state.now))]
                                       [answer.successor := Row(userId, family, state.now, state.now + answer.ttl, None)]
    {
      RotationOutcome(state, me, id, userId, family, answer);
      Log(Advance(me, answer.successor, answer.ttl));
      var table := state.table;
      if id !in table || table[id].revokedAt.Some? {
        state := state.(calls := state.calls[me := Refused(AlreadyUsed)]);
        return Success(false);
      }
      table := table[id := table[id].(revokedAt := Some(state.now))];
      if answer.successor in state.usedTokens {
        state := state.(calls := state.calls[me := Refused(Unexpected)]);
        return Failure(Unexpected);
      }
      table := table[answer.successor := Row(userId, family, state.now, state.now + answer.ttl, None)];
      state := state.(table := table, usedTokens := state.usedTokens + {answer.successor}, rotated := state.rotated + [id],
                      calls := state.calls[me := Refreshed(id, answer.successor)]);
      return Success(true);
    }

    method RevokeAllTokensInFamily(family: FamilyId, because: AuthError)
      requires Valid() && me in state.calls && Phase() == Revoking(family, because)
      modifies this
      ensures Valid() && me in state.calls && Phase() == Refused(because) && Dead(state, family)
    {
      var answer := Await();
      Log(Advance(me, answer.successor, answer.ttl));
      assert PhaseOk(state, Phase());
      var table := state.table;
      state := state.(table := map t | t in table :: if table[t].family == family then table[t].(revokedAt := Some(state.now)) else table[t],
                      calls := state.calls[me := Refused(because)]);
      assert state.table == Revoke(table, FamilyOf(table, family), state.now);
    }

    method Look(presented: Presented)
      requires Valid() && me in state.calls && Phase() == Finding(presented)
      modifies this
      ensures Valid() && me in state.calls
      ensures state.table == Runs(old(state), env(old(awaits))).table && awaits == old(awaits) + 1
      ensures Phase().Checking? <==> Good(Runs(old(state), env(old(awaits))), presented)
      ensures var met := Runs(old(state), env(old(awaits)));
              match Phase()
              case Refused(e) => e == UnknownToken || e == Expired || e == FamilyMismatch || e == UserMismatch
              case Revoking(f, e) => e == Revoked && IsSpent(met.table, presented.token) && f == met.table[presented.token].family
              case Checking(t, u, f) => t == presented.token && u == presented.userId && f == presented.family
              case _ => false
    {
      var answer := Await();
      var table := state.table;
      if presented.token !in table { Move(Refused(UnknownToken), answer); return; }
      var row := table[presented.token];
      if row.revokedAt.Some? { Move(Revoking(row.family, Revoked), answer); return; }
      if row.expiresAt < state.now { Move(Refused(Expired), answer); return; }
      if row.family != presented.family { Move(Refused(FamilyMismatch), answer); return; }
      if row.userId != presented.userId { Move(Refused(UserMismatch), answer); return; }
      Move(Checking(presented.token, row.userId, row.family), answer);
    }

    method CheckLatest(t: TokenId, userId: UserId, family: FamilyId)
      requires Valid() && me in state.calls && Phase() == Checking(t, userId, family)
      modifies this
      ensures Valid() && me in state.calls
      ensures var met := Runs(old(state), env(old(awaits)));
              && state.table == met.table && awaits == old(awaits) + 1
              && Phase() == if exists u :: u != t && u in Active(met.table, family, met.now) && met.now - met.table[u].createdAt >= 30_000
                            then Revoking(family, Superseded) else Rotating(t, userId, family)
    {
      var answer := Await();
      var latest := LatestActive(state.table, family, state.now);
      assert forall u, v :: u in Active(state.table, family, state.now) && v in Active(state.table, family, state.now) ==> u == v;
      if latest.Some? && latest.value != t {
        var age := state.now - state.table[latest.value].createdAt;
        if age >= GRACE_MS { Move(Revoking(family, Superseded), answer); return; }
      }
      Move(Rotating(t, userId, family), answer);
    }

    ghost predicate Issued(presented: Presented, t: TokenId, ttl: nat)
      requires me in state.calls
      reads this
    {
      && Phase() == Refreshed(presented.token, t) && Times(state.rotated, presented.token) == 1
      && t in state.table && state.table[t] == Row(presented.userId, presented.family, state.now, state.now + ttl, None)
      && (forall u :: u in state.table && state.table[u].family == presented.family && Live(state.table, u) ==> u == t)
    }

    method Exchange(presented: Presented) returns (r: Result<TokenId, AuthError>)
      requires Valid() && me in state.calls && Phase() == Rotating(presented.token, presented.userId, presented.family)
      modifies this
      ensures Valid() && me in state.calls
      ensures match r
              case Success(t) => Issued(presented, t, oracle(old(awaits)).ttl)
              case Failure(e) => Phase() == Refused(e) && (e == AlreadyUsed || e == Unexpected)
      ensures var met := Runs(old(state), env(old(awaits)));
              r.Success? <==> Live(met.table, presented.token) && oracle(old(awaits)).successor !in met.usedTokens
    {
      var answer := Await();
      var rotated := RotateRefreshToken(presented.token, presented.userId, presented.family, answer);
      if rotated.Failure? { return Failure(rotated.error); }
      if !rotated.value { return Failure(AlreadyUsed); }
      assert PhaseOk(state, Phase());
      r := Success(answer.successor);
    }

    method CheckAndExchange(presented: Presented) returns (r: Result<TokenId, AuthError>)
      requires Valid() && me in state.calls && Phase() == Checking(presented.token, presented.userId, presented.family)
      modifies this
      ensures Valid() && me in state.calls
      ensures match r
              case Success(t) => Issued(presented, t, oracle(old(awaits) + 1).ttl)
              case Failure(e) => Phase() == Refused(e) && e != Revoked && (e == Superseded ==> Dead(state, presented.family))
    {
      CheckLatest(presented.token, presented.userId, presented.family);
      if Phase().Revoking? {
        RevokeAllTokensInFamily(presented.family, Superseded);
        return Failure(Superseded);
      }
      r := Exchange(presented);
    }

    method Start(presented: Presented)
      requires Valid() && me !in state.calls
      modifies this`state, this`trace
      ensures Valid() && state == Apply(old(state), Refresh(me, presented)) && me in state.calls && Phase() == Finding(presented)
    {
      Log(Refresh(me, presented));
      state := state.(calls := state.calls[me := Finding(presented)]);
    }

    /**
     A successful refresh leaves its successor as the one unrevoked token of the family and has
     exchanged the presented token exactly once; a token found revoked or superseded leaves its family dead.
     */
    method RefreshToken(presented: Presented) returns (r: Result<TokenId, AuthError>)
      requires Valid() && me !in state.calls
      modifies this
      ensures Valid() && me in state.calls
      ensures match r
              case Success(t) => Issued(presented, t, oracle(old(awaits) + 2).ttl)
              case Failure(e) =>
                && Phase() == Refused(e)
                && (e == Superseded ==> Dead(state, presented.family))
                && (e == Revoked ==>
                      var met := Runs(Apply(old(state), Refresh(me, presented)), env(old(awaits)));
                      IsSpent(met.table, presented.token) && Dead(state, met.table[presented.token].family))
    {
      Start(presented);
      Look(presented);
      if Phase().Refused? { return Failure(Phase().error); }
      if Phase().Revoking? {
        var family := Phase().family;
        RevokeAllTokensInFamily(family, Revoked);
        return Failure(Revoked);
      }
      r := CheckAndExchange(presented);
    }
  }
}
