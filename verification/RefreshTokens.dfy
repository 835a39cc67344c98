/**
 Refresh-token families: logins, concurrent rotations in sub-steps, logouts and revocations,
 interleaved without restriction.
 */
module RefreshTokens {
  import opened Wrappers

  type TokenId = nat
  type FamilyId = nat
  type UserId = nat
  type CallId = nat

  const GRACE_MS: nat := 30_000

  datatype Row = Row(userId: UserId, family: FamilyId, createdAt: nat, expiresAt: nat, revokedAt: Option<nat>)

  type Table = map<TokenId, Row>

  datatype AuthError = UnknownToken | Revoked | Expired | FamilyMismatch | UserMismatch | Superseded | AlreadyUsed | Unexpected

  /** The signed claims of the presented token. */
  datatype Presented = Presented(token: TokenId, userId: UserId, family: FamilyId)

  datatype Phase =
    | Finding(presented: Presented)
    | Checking(token: TokenId, userId: UserId, family: FamilyId)
    | Rotating(token: TokenId, userId: UserId, family: FamilyId)
    | Revoking(family: FamilyId, because: AuthError)
    | Refreshed(token: TokenId, successor: TokenId)
    | Refused(error: AuthError)

  datatype State = State(
    table: Table,
    now: nat,
    usedTokens: set<TokenId>,
    usedFamilies: set<FamilyId>,
    calls: map<CallId, Phase>,
    rotated: seq<TokenId>)  // history: tokens exchanged for a successor

  datatype Action =
    | Login(userId: UserId, family: FamilyId, token: TokenId, ttl: nat)
    | Refresh(call: CallId, presented: Presented)
    | Advance(call: CallId, successor: TokenId, ttl: nat)
    | Logout(token: TokenId)
    | DeleteUser(userId: UserId)
    | RevokeOne(token: TokenId)
    | RevokeFamily(family: FamilyId)
    | Tick(elapsed: nat)

  // ---------- statements ----------

  predicate Live(table: Table, t: TokenId) { t in table && table[t].revokedAt.None? }

  function Active(table: Table, family: FamilyId, now: nat): set<TokenId> {
    set t | t in table && Live(table, t) && table[t].family == family && table[t].expiresAt > now
  }

  /** By creation time; the id breaks ties so that the order is total. */
  predicate Before(table: Table, t: TokenId, u: TokenId)
    requires t in table && u in table
  {
    table[t].createdAt < table[u].createdAt || (table[t].createdAt == table[u].createdAt && t <= u)
  }

  predicate Newest(table: Table, s: set<TokenId>, t: TokenId)
    requires s <= table.Keys
  {
    t in s && forall u :: u in s ==> Before(table, u, t)
  }

  lemma NewestOfTwo(table: Table, s: set<TokenId>, t: TokenId, v: TokenId)
    requires t in s && s <= table.Keys && Newest(table, s - {t}, v)
    ensures Newest(table, s, if Before(table, t, v) then v else t)
  {
    assert forall u :: u in s ==> u == t || u in s - {t};
  }

  lemma {:induction false} NewestExists(table: Table, s: set<TokenId>)
    requires s != {} && s <= table.Keys
    ensures exists t :: Newest(table, s, t)
    decreases |s|
  {
    var t :| t in s;
    if s == {t} {
      assert Newest(table, s, t);
    } else {
      assert s - {t} != {};
      NewestExists(table, s - {t});
      var v :| Newest(table, s - {t}, v);
      NewestOfTwo(table, s, t, v);
    }
  }

  /** `findActiveRefreshTokenByFamily`: the newest unrevoked, unexpired token. */
  function LatestActive(table: Table, family: FamilyId, now: nat): (r: Option<TokenId>)
    ensures r.None? <==> Active(table, family, now) == {}
    ensures r.Some? ==> r.value in Active(table, family, now)
  {
    var s := Active(table, family, now);
    if s == {} then None
    else
      NewestExists(table, s);
      var t :| t in s && Newest(table, s, t);
      Some(t)
  }

  function Revoke(table: Table, ids: set<TokenId>, now: nat): (table': Table)
    ensures table'.Keys == table.Keys
    ensures forall t :: t in table' ==> table'[t] == if t in ids then table[t].(revokedAt := Some(now)) else table[t]
  {
    map t | t in table :: if t in ids then table[t].(revokedAt := Some(now)) else table[t]
  }

  function FamilyOf(table: Table, family: FamilyId): set<TokenId> { set t | t in table && table[t].family == family }

  /** One transaction: revoke the current token if it still is unrevoked, and insert its successor. */
  predicate CanRotate(table: Table, t: TokenId) { Live(table, t) }

  function Rotate(table: Table, t: TokenId, successor: TokenId, userId: UserId, family: FamilyId, now: nat, ttl: nat): Table
    requires CanRotate(table, t)
  {
    Revoke(table, {t}, now)[successor := Row(userId, family, now, now + ttl, None)]
  }

  // ---------- the refresh call ----------

  function Found(s: State, p: Presented): Phase {
    if p.token !in s.table then Refused(UnknownToken)
    else
      var row := s.table[p.token];
      if row.revokedAt.Some? then Revoking(row.family, Revoked)
      else if row.expiresAt < s.now then Refused(Expired)
      else if row.family != p.family then Refused(FamilyMismatch)
      else if row.userId != p.userId then Refused(UserMismatch)
      else Checking(p.token, row.userId, row.family)
  }

  function Checked(s: State, t: TokenId, userId: UserId, family: FamilyId): Phase {
    var latest := LatestActive(s.table, family, s.now);
    if latest.Some? && latest.value != t && s.now - s.table[latest.value].createdAt >= GRACE_MS
    then Revoking(family, Superseded)
    else Rotating(t, userId, family)
  }

  function Step(s: State, c: CallId, successor: TokenId, ttl: nat): State
    requires c in s.calls
  {
    match s.calls[c]
    case Finding(p) => s.(calls := s.calls[c := Found(s, p)])
    case Checking(t, u, f) => s.(calls := s.calls[c := Checked(s, t, u, f)])
    case Rotating(t, u, f) =>
      if !CanRotate(s.table, t) then s.(calls := s.calls[c := Refused(AlreadyUsed)])
      else if successor in s.usedTokens then s.(calls := s.calls[c := Refused(Unexpected)])
      else
        s.(table := Rotate(s.table, t, successor, u, f, s.now, ttl), usedTokens := s.usedTokens + {successor},
           calls := s.calls[c := Refreshed(t, successor)], rotated := s.rotated + [t])
    case Revoking(f, e) => s.(table := Revoke(s.table, FamilyOf(s.table, f), s.now), calls := s.calls[c := Refused(e)])
    case Refreshed(_, _) => s
    case Refused(_) => s
  }

  /** `generateTokens` without a family starts a new one. */
  function DoLogin(s: State, userId: UserId, family: FamilyId, token: TokenId, ttl: nat): State {
    if family in s.usedFamilies || token in s.usedTokens then s
    else
      s.(table := s.table[token := Row(userId, family, s.now, s.now + ttl, None)],
         usedTokens := s.usedTokens + {token}, usedFamilies := s.usedFamilies + {family})
  }

  function Apply(s: State, a: Action): State {
    match a
    case Login(u, f, t, ttl) => DoLogin(s, u, f, t, ttl)
    case Refresh(c, p) => if c in s.calls then s else s.(calls := s.calls[c := Finding(p)])
    case Advance(c, successor, ttl) => if c in s.calls then Step(s, c, successor, ttl) else s
    case Logout(t) => s.(table := s.table - {t})
    case DeleteUser(u) => s.(table := map t | t in s.table && s.table[t].userId != u :: s.table[t])
    case RevokeOne(t) => if Live(s.table, t) then s.(table := Revoke(s.table, {t}, s.now)) else s
    case RevokeFamily(f) => s.(table := Revoke(s.table, FamilyOf(s.table, f), s.now))
    case Tick(elapsed) => s.(now := s.now + elapsed)
  }

  function Runs(s: State, actions: seq<Action>): State
    decreases |actions|
  {
    if actions == [] then s else Runs(Apply(s, actions[0]), actions[1..])
  }

  lemma {:induction false} RunsAppend(s: State, before: seq<Action>, after: seq<Action>)
    ensures Runs(s, before + after) == Runs(Runs(s, before), after)
    ensures |after| == 1 ==> Runs(s, before + after) == Apply(Runs(s, before), after[0])
    decreases |before|
  {
    if before == [] {
      assert before + after == after;
    } else {
      assert (before + after)[0] == before[0] && (before + after)[1..] == before[1..] + after;
      RunsAppend(Apply(s, before[0]), before[1..], after);
    }
  }

  const EMPTY := State(map[], 0, {}, {}, map[], [])

  // ---------- the invariant ----------

  /** Never two unrevoked tokens in one family. */
  predicate OneLive(table: Table) {
    forall t, u | t in table && u in table :: Live(table, t) && Live(table, u) && table[t].family == table[u].family ==> t == u
  }

  function Times(log: seq<TokenId>, t: TokenId): nat {
    if log == [] then 0 else Times(log[..|log| - 1], t) + (if log[|log| - 1] == t then 1 else 0)
  }

  lemma TimesAppend(log: seq<TokenId>, u: TokenId, t: TokenId)
    ensures Times(log + [u], t) == Times(log, t) + (if u == t then 1 else 0)
  {
    assert (log + [u])[..|log|] == log;
  }

  /** A token is exchanged at most once, and then never unrevoked again. */
  predicate RotatedOnce(s: State, t: TokenId) {
    && Times(s.rotated, t) <= 1
    && (Times(s.rotated, t) == 1 ==> t in s.usedTokens && !Live(s.table, t))
    && (t in s.table ==> t in s.usedTokens && s.table[t].family in s.usedFamilies)
  }

  /** A call past its lookup speaks about the token and the family of a row it saw. */
  predicate PhaseOk(s: State, phase: Phase) {
    match phase
    case Checking(t, u, f) => t in s.usedTokens && f in s.usedFamilies && (t in s.table ==> s.table[t].family == f && s.table[t].userId == u)
    case Rotating(t, u, f) => t in s.usedTokens && f in s.usedFamilies && (t in s.table ==> s.table[t].family == f && s.table[t].userId == u)
    case Revoking(f, _) => f in s.usedFamilies
    case Refreshed(t, t') => Times(s.rotated, t) == 1 && t' in s.usedTokens
    case _ => true
  }

  ghost predicate Inv(s: State) {
    && OneLive(s.table)
    && (forall t :: RotatedOnce(s, t))
    && (forall c :: c in s.calls ==> PhaseOk(s, s.calls[c]))
  }

  ghost predicate Dead(s: State, family: FamilyId) {
    family in s.usedFamilies && forall t :: t in s.table && s.table[t].family == family ==> !Live(s.table, t)
  }

  /** Nothing but revocation, deletion and brand-new rows: what every statement does to the old rows. */
  ghost predicate OnlyFades(s: State, s': State) {
    && s.usedTokens <= s'.usedTokens && s.usedFamilies <= s'.usedFamilies && s.now <= s'.now
    && forall t :: t in s'.table ==>
         if t in s.table then s'.table[t] == s.table[t].(revokedAt := s'.table[t].revokedAt) && (Live(s'.table, t) ==> Live(s.table, t))
         else t !in s.usedTokens
  }

  lemma StepFades(s: State, a: Action)
    requires forall t :: t in s.table ==> t in s.usedTokens
    ensures OnlyFades(s, Apply(s, a))
  {
  }

  lemma FadingKeepsOneLive(s: State, s': State)
    requires OneLive(s.table) && OnlyFades(s, s') && s'.table.Keys <= s.table.Keys
    ensures OneLive(s'.table)
  {
  }

  lemma BirthKeepsOneLive(table: Table, table': Table, added: TokenId)
    requires OneLive(table) && added in table' && added !in table && table'.Keys <= table.Keys + {added}
    requires forall t :: t in table && t in table' ==> table'[t].family == table[t].family && (Live(table', t) ==> Live(table, t))
    requires forall t :: t in table && t in table' && table[t].family == table'[added].family ==> !Live(table', t)
    ensures OneLive(table')
  {
    forall t, u | t in table' && u in table' && Live(table', t) && Live(table', u) && table'[t].family == table'[u].family
      ensures t == u
    {
      assert t == added || t in table;
      assert u == added || u in table;
    }
  }

  lemma StepKeepsOneLive(s: State, a: Action)
    requires Inv(s)
    ensures OneLive(Apply(s, a).table)
  {
    forall t | t in s.table ensures t in s.usedTokens && s.table[t].family in s.usedFamilies { assert RotatedOnce(s, t); }
    StepFades(s, a);
    var s' := Apply(s, a);
    if a.Login? && s'.table != s.table {
      BirthKeepsOneLive(s.table, s'.table, a.token);
    } else if a.Advance? && a.call in s.calls && s.calls[a.call].Rotating? && s'.table != s.table {
      RotationKeepsOneLive(s, a.call, a.successor, a.ttl);
    } else {
      FadingKeepsOneLive(s, s');
    }
  }

  lemma RotationKeepsOneLive(s: State, c: CallId, successor: TokenId, ttl: nat)
    requires Inv(s) && c in s.calls && s.calls[c].Rotating? && CanRotate(s.table, s.calls[c].token) && successor !in s.usedTokens
    ensures OneLive(Step(s, c, successor, ttl).table)
  {
    var t, f := s.calls[c].token, s.calls[c].family;
    assert PhaseOk(s, s.calls[c]);
    assert RotatedOnce(s, successor);
    var table' := Step(s, c, successor, ttl).table;
    forall u | u in s.table && u in table' && s.table[u].family == f ensures !Live(table', u) {
      if Live(s.table, u) { assert u == t; }
    }
    BirthKeepsOneLive(s.table, table', successor);
  }

  lemma RotationKeepsRotations(s: State, c: CallId, successor: TokenId, ttl: nat, t: TokenId)
    requires Inv(s) && c in s.calls && s.calls[c].Rotating?
    ensures RotatedOnce(Step(s, c, successor, ttl), t)
  {
    assert RotatedOnce(s, t);
    assert PhaseOk(s, s.calls[c]);
    TimesAppend(s.rotated, s.calls[c].token, t);
  }

  lemma StepKeepsRotations(s: State, a: Action, t: TokenId)
    requires Inv(s) && OnlyFades(s, Apply(s, a))
    ensures RotatedOnce(Apply(s, a), t)
  {
    assert RotatedOnce(s, t);
    if a.Advance? && a.call in s.calls {
      if s.calls[a.call].Rotating? { RotationKeepsRotations(s, a.call, a.successor, a.ttl, t); }
    } else if a.Login? {
      assert t in Apply(s, a).table ==> t in s.table || t == a.token;
    }
  }

  lemma PhaseSurvives(s: State, s': State, phase: Phase)
    requires PhaseOk(s, phase) && OnlyFades(s, s') && (s'.rotated == s.rotated || exists t :: s'.rotated == s.rotated + [t] && Times(s.rotated, t) == 0)
    ensures PhaseOk(s', phase)
  {
    if phase.Refreshed? && s'.rotated != s.rotated {
      var t :| s'.rotated == s.rotated + [t] && Times(s.rotated, t) == 0;
      TimesAppend(s.rotated, t, phase.token);
    }
  }

  lemma LogGrows(s: State, a: Action)
    requires Inv(s)
    ensures var s' := Apply(s, a);
            s'.rotated == s.rotated || exists t :: s'.rotated == s.rotated + [t] && Times(s.rotated, t) == 0
  {
    if a.Advance? && a.call in s.calls && s.calls[a.call].Rotating? { assert RotatedOnce(s, s.calls[a.call].token); }
  }

  lemma OwnPhase(s: State, c: CallId, successor: TokenId, ttl: nat)
    requires Inv(s) && c in s.calls
    ensures PhaseOk(Step(s, c, successor, ttl), Step(s, c, successor, ttl).calls[c])
  {
    var s' := Step(s, c, successor, ttl);
    assert PhaseOk(s, s.calls[c]);
    match s.calls[c]
    case Finding(p) => assert RotatedOnce(s, p.token);
    case Rotating(t, u, f) =>
      assert RotatedOnce(s, t);
      TimesAppend(s.rotated, t, t);
    case _ =>
  }

  lemma StepKeepsInv(s: State, a: Action)
    requires Inv(s)
    ensures Inv(Apply(s, a)) && OnlyFades(s, Apply(s, a))
  {
    forall u | u in s.table ensures u in s.usedTokens { assert RotatedOnce(s, u); }
    StepFades(s, a);
    StepKeepsOneLive(s, a);
    forall t ensures RotatedOnce(Apply(s, a), t) { StepKeepsRotations(s, a, t); }
    LogGrows(s, a);
    var s' := Apply(s, a);
    forall c | c in s'.calls ensures PhaseOk(s', s'.calls[c]) {
      if a.Advance? && a.call == c && c in s.calls { OwnPhase(s, c, a.successor, a.ttl); }
      else if c in s.calls { PhaseSurvives(s, s', s.calls[c]); }
    }
  }

  lemma {:induction false} RunKeepsInv(s: State, actions: seq<Action>)
    requires Inv(s)
    ensures Inv(Runs(s, actions))
    decreases |actions|
  {
    if actions != [] {
      StepKeepsInv(s, actions[0]);
      RunKeepsInv(Apply(s, actions[0]), actions[1..]);
    }
  }

  // ---------- the main results ----------

  /** Over any interleaving: one unrevoked token per family, each token exchanged at most once. */
  lemma FamiliesStaySingle(actions: seq<Action>, t: TokenId, u: TokenId)
    ensures var s := Runs(EMPTY, actions);
            && Times(s.rotated, t) <= 1
            && (Live(s.table, t) && Live(s.table, u) && s.table[t].family == s.table[u].family ==> t == u)
  {
    RunKeepsInv(EMPTY, actions);
    assert RotatedOnce(Runs(EMPTY, actions), t);
  }

  lemma DeadStepStaysDead(s: State, a: Action, family: FamilyId)
    requires Inv(s) && Dead(s, family)
    ensures Dead(Apply(s, a), family)
  {
    StepKeepsInv(s, a);
    var s' := Apply(s, a);
    forall t | t in s'.table && s'.table[t].family == family ensures !Live(s'.table, t) {
      if t !in s.table && a.Advance? && a.call in s.calls { assert PhaseOk(s, s.calls[a.call]); }
    }
  }

  /** A family without an unrevoked token never regains one. */
  lemma {:induction false} DeadStaysDead(s: State, actions: seq<Action>, family: FamilyId)
    requires Inv(s) && Dead(s, family)
    ensures Dead(Runs(s, actions), family)
    decreases |actions|
  {
    if actions != [] {
      StepKeepsInv(s, actions[0]);
      DeadStepStaysDead(s, actions[0], family);
      DeadStaysDead(Apply(s, actions[0]), actions[1..], family);
    }
  }

  /** Presenting a revoked token ends its family: no later refresh in it can succeed. */
  lemma ReuseKillsTheFamily(s: State, c: CallId, successor: TokenId, ttl: nat, actions: seq<Action>)
    requires Inv(s) && c in s.calls && s.calls[c].Revoking?
    ensures var s' := Apply(s, Advance(c, successor, ttl));
            Inv(s') && Dead(Runs(s', actions), s.calls[c].family)
  {
    var s', f := Apply(s, Advance(c, successor, ttl)), s.calls[c].family;
    StepKeepsInv(s, Advance(c, successor, ttl));
    assert PhaseOk(s, s.calls[c]);
    assert Dead(s', f);
    DeadStaysDead(s', actions, f);
  }

  /**
   The grace period never lets a superseded token through: whenever the family has another active
   token, this one is already revoked, so the rotation that follows is refused.
   */
  lemma GraceOnlySparesTheFamily(s: State, c: CallId)
    requires Inv(s) && c in s.calls && s.calls[c].Checking?
    requires var latest := LatestActive(s.table, s.calls[c].family, s.now); latest.Some? && latest.value != s.calls[c].token
    ensures !CanRotate(s.table, s.calls[c].token)
  {
    assert PhaseOk(s, s.calls[c]);
  }

  /** What a client can rely on: the token is stored, unrevoked, unexpired, and has the claims it was issued with. */
  predicate Good(s: State, p: Presented) {
    && Live(s.table, p.token) && s.now <= s.table[p.token].expiresAt
    && s.table[p.token].family == p.family && s.table[p.token].userId == p.userId
  }

  lemma ActiveIsAlone(s: State, p: Presented)
    requires Inv(s) && Good(s, p)
    ensures var latest := LatestActive(s.table, p.family, s.now); latest.None? || latest.value == p.token
  {
  }

  /** The look-up lets exactly the good tokens pass; a revoked one ends its family, the rest learn why they are refused. */
  lemma FindingIsExact(s: State, p: Presented)
    ensures match Found(s, p)
            case Checking(t, u, f) => Good(s, p) && t == p.token && u == p.userId && f == p.family
            case Revoking(f, e) => !Good(s, p) && e == Revoked && p.token in s.table && s.table[p.token].revokedAt.Some? && f == s.table[p.token].family
            case Refused(e) =>
              && !Good(s, p)
              && (e == UnknownToken <==> p.token !in s.table)
              && (e == Expired ==> s.table[p.token].expiresAt < s.now)
              && (e == FamilyMismatch ==> p.token in s.table && s.table[p.token].family != p.family)
              && (e == UserMismatch ==> p.token in s.table && s.table[p.token].userId != p.userId)
            case _ => false
  {
  }

  /**
   A token that was exchanged already, while its family has another active one: for 30 seconds after
   that one was issued the caller is refused and nothing is revoked; from then on the family ends.
   */
  lemma GraceIsExact(s: State, c: CallId, newer: TokenId, successor: TokenId, ttl: nat)
    requires Inv(s) && c in s.calls && s.calls[c].Checking?
    requires var f := s.calls[c].family; newer != s.calls[c].token && newer in Active(s.table, f, s.now)
    ensures var step := Advance(c, successor, ttl);
            var s' := Apply(Apply(s, step), step);
            if s.now - s.table[newer].createdAt < 30_000 then s'.calls[c] == Refused(AlreadyUsed) && s'.table == s.table
            else s'.calls[c] == Refused(Superseded) && Dead(s', s.calls[c].family)
  {
    var f := s.calls[c].family;
    assert PhaseOk(s, s.calls[c]) && RotatedOnce(s, newer);
    assert LatestActive(s.table, f, s.now) == Some(newer);
    var s1 := Apply(s, Advance(c, successor, ttl));
    StepKeepsInv(s, Advance(c, successor, ttl));
  }

  /** Without another active token in the family the call goes on to rotate. */
  lemma NoRivalNoRevocation(s: State, c: CallId, successor: TokenId, ttl: nat)
    requires c in s.calls && s.calls[c].Checking? && Active(s.table, s.calls[c].family, s.now) <= {s.calls[c].token}
    ensures var s', phase := Apply(s, Advance(c, successor, ttl)), s.calls[c];
            s'.calls[c] == Rotating(phase.token, phase.userId, phase.family) && s'.table == s.table
  {
  }

  /** A login hands out a token that is good for its whole lifetime, and touches no other. */
  lemma LoginsIssueGoodTokens(s: State, userId: UserId, family: FamilyId, token: TokenId, ttl: nat)
    requires Inv(s) && family !in s.usedFamilies && token !in s.usedTokens
    ensures var s' := Apply(s, Login(userId, family, token, ttl));
            && Good(s', Presented(token, userId, family)) && s'.table[token].expiresAt == s.now + ttl && s'.table[token].createdAt == s.now
            && forall t :: t in s.table ==> t in s'.table && s'.table[t] == s.table[t]
  {
    assert RotatedOnce(s, token);
    forall t | t in s.table ensures t != token { assert RotatedOnce(s, t); }
  }

  /** The actions that end a token: its own exchange, its family's end, its deletion or its user's. */
  predicate Touches(s: State, a: Action, t: TokenId)
    requires t in s.table
  {
    match a
    case Advance(c, _, _) =>
      && c in s.calls
      && ((s.calls[c].Rotating? && s.calls[c].token == t) || (s.calls[c].Revoking? && s.calls[c].family == s.table[t].family))
    case Logout(u) => u == t
    case DeleteUser(u) => s.table[t].userId == u
    case RevokeOne(u) => u == t
    case RevokeFamily(f) => s.table[t].family == f
    case _ => false
  }

  lemma UntouchedRowsStay(s: State, a: Action, t: TokenId)
    requires Inv(s) && t in s.table && !Touches(s, a, t)
    ensures t in Apply(s, a).table && Apply(s, a).table[t] == s.table[t]
  {
    assert RotatedOnce(s, t);
  }

  /** Logging out and deleting a user remove their tokens; revoking stamps them, alone only if they were not revoked before. */
  lemma EndedTokensAreGone(s: State, a: Action, t: TokenId)
    requires t in s.table && Touches(s, a, t) && !a.Advance?
    ensures if a.Logout? || a.DeleteUser? then t !in Apply(s, a).table
            else
              && t in Apply(s, a).table
              && Apply(s, a).table[t] == s.table[t].(revokedAt := if a.RevokeOne? && s.table[t].revokedAt.Some? then s.table[t].revokedAt else Some(s.now))
  {
  }

  predicate Untouched(s: State, actions: seq<Action>, t: TokenId)
    decreases |actions|
  {
    actions == [] || (t in s.table && !Touches(s, actions[0], t) && Untouched(Apply(s, actions[0]), actions[1..], t))
  }

  /** A good token stays good until something ends it or its time is over, whatever else happens. */
  lemma {:induction false} GoodTokensStayGood(s: State, actions: seq<Action>, p: Presented)
    requires Inv(s) && Good(s, p) && Untouched(s, actions, p.token) && Runs(s, actions).now <= s.table[p.token].expiresAt
    ensures Inv(Runs(s, actions)) && Good(Runs(s, actions), p)
    decreases |actions|
  {
    if actions != [] {
      var s' := Apply(s, actions[0]);
      StepKeepsInv(s, actions[0]);
      UntouchedRowsStay(s, actions[0], p.token);
      TimePasses(s', actions[1..]);
      GoodTokensStayGood(s', actions[1..], p);
    }
  }

  lemma {:induction false} TimePasses(s: State, actions: seq<Action>)
    ensures s.now <= Runs(s, actions).now
    decreases |actions|
  {
    if actions != [] { TimePasses(Apply(s, actions[0]), actions[1..]); }
  }

  /**
   A refresh that runs undisturbed, through all its statements, succeeds exactly for a good token;
   presenting a revoked one leaves its family dead.
   */
  lemma UndisturbedRefreshIsExact(s: State, c: CallId, p: Presented, successor: TokenId, ttl: nat)
    requires Inv(s) && c !in s.calls && successor !in s.usedTokens
    ensures var step := Advance(c, successor, ttl);
            var s' := Apply(Apply(Apply(Apply(s, Refresh(c, p)), step), step), step);
            && (s'.calls[c] == Refreshed(p.token, successor) <==> Good(s, p))
            && (s'.calls[c].Refreshed? ==> Good(s, p) && Live(s'.table, successor) && !Live(s'.table, p.token))
            && (p.token in s.table && !Live(s.table, p.token) ==> Dead(s', s.table[p.token].family))
  {
    var step := Advance(c, successor, ttl);
    var s1 := Apply(s, Refresh(c, p));
    StepKeepsInv(s, Refresh(c, p));
    var s2 := Apply(s1, step);
    StepKeepsInv(s1, step);
    if Good(s, p) {
      ActiveIsAlone(s2, p);
      assert RotatedOnce(s, p.token);
    } else if p.token in s.table && !Live(s.table, p.token) {
      assert RotatedOnce(s, p.token);
      assert s2.calls[c] == Revoking(s.table[p.token].family, Revoked);
    }
  }

  /** Revoked and deleted tokens stay unusable, whatever runs afterwards. */
  lemma {:induction false} SpentStaysSpent(s: State, actions: seq<Action>, t: TokenId)
    requires Inv(s) && t in s.usedTokens && !Live(s.table, t)
    ensures !CanRotate(Runs(s, actions).table, t)
    decreases |actions|
  {
    if actions != [] {
      StepKeepsInv(s, actions[0]);
      SpentStaysSpent(Apply(s, actions[0]), actions[1..], t);
    }
  }
}
