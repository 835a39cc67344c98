/** The outbox drains: settlements are bounded, and every pending row becomes claimable again. */
module OutboxDrain {
  import opened Wrappers
  import opened OutboxTable
  import opened OutboxProtocol
  import opened OutboxSafety
  import opened Sums

  function Weight(c: Config, row: Row): int {
    if Pending(row) then c.maxAttempts - row.attempts else 0
  }

  function Weights(c: Config, rows: Table): map<EventId, int> {
    map id | id in rows :: Weight(c, rows[id])
  }

  /** Failures the pending rows can still absorb before all of them are dead-lettered. */
  ghost function Budget(c: Config, rows: Table): int { Sum(Weights(c, rows)) }

  /** The action is a relay update that the store accepts. */
  predicate Settles(s: State, a: Action) {
    match a
    case MarkPublished(r, reply) =>
      && RelayOf(s, r).queue != [] && RelayOf(s, r).stage.Publishing?
      && reply != LostBeforeCommit && Accepts(s.db.rows, Head(s, r).id, r, s.db.now)
    case MarkFailed(r, reply) =>
      && RelayOf(s, r).queue != [] && RelayOf(s, r).stage.Failing?
      && reply != LostBeforeCommit && Accepts(s.db.rows, Head(s, r).id, r, s.db.now)
    case _ => false
  }

  function Settlements(c: Config, s: State, actions: seq<Action>): nat
    decreases |actions|
  {
    if actions == [] then 0
    else (if Settles(s, actions[0]) then 1 else 0) + Settlements(c, Apply(c, s, actions[0]), actions[1..])
  }

  predicate AddsWork(a: Action) { a.Insert? || a.Replay? }

  lemma SettlingSpends(c: Config, s: State, a: Action)
    requires Inv(c, s) && Settles(s, a)
    ensures Budget(c, Apply(c, s, a).db.rows) < Budget(c, s.db.rows)
  {
    var w := Head(s, a.r);
    assert RelayOk(c, s, a.r);
    var rows' := Apply(c, s, a).db.rows;
    assert Weights(c, rows') == Weights(c, s.db.rows)[w.id := Weight(c, rows'[w.id])];
    SumUpdate(Weights(c, s.db.rows), w.id, Weight(c, rows'[w.id]));
  }

  lemma CleanupSpendsNothing(c: Config, s: State, ids: set<EventId>, cutoff: Time)
    ensures Budget(c, Apply(c, s, Cleanup(ids, cutoff)).db.rows) == Budget(c, s.db.rows)
  {
    var gone := DeletedIds(s.db.rows, ids, cutoff);
    SumRemoveZeros(Weights(c, s.db.rows), gone);
    assert Weights(c, s.db.rows - gone) == Weights(c, s.db.rows) - gone;
  }

  lemma OthersLeaveTheRows(c: Config, s: State, a: Action)
    requires !Settles(s, a) && !AddsWork(a) && !a.Cleanup? && !a.Poll? && !a.Heartbeat?
    ensures Apply(c, s, a).db.rows == s.db.rows
  {
  }

  lemma LeasingSpendsNothing(c: Config, s: State, a: Action)
    requires a.Poll? || a.Heartbeat?
    ensures Weights(c, Apply(c, s, a).db.rows) == Weights(c, s.db.rows)
  {
  }

  lemma OthersSpendNothing(c: Config, s: State, a: Action)
    requires !Settles(s, a) && !AddsWork(a)
    ensures Budget(c, Apply(c, s, a).db.rows) == Budget(c, s.db.rows)
  {
    if a.Cleanup? {
      CleanupSpendsNothing(c, s, a.ids, a.cutoff);
    } else if a.Poll? || a.Heartbeat? {
      LeasingSpendsNothing(c, s, a);
    } else {
      OthersLeaveTheRows(c, s, a);
    }
  }

  /**
   Without new events or replays, accepted updates are paid for out of the budget; since the
   budget is never negative, only boundedly many updates can happen, over any interleaving.
   */
  lemma {:induction false} SettlementsAreBounded(c: Config, s: State, actions: seq<Action>)
    requires Inv(c, s) && forall k :: 0 <= k < |actions| ==> !AddsWork(actions[k])
    ensures Settlements(c, s, actions) + Budget(c, Runs(c, s, actions).db.rows) <= Budget(c, s.db.rows)
    ensures Settlements(c, s, actions) <= Budget(c, s.db.rows)
    decreases |actions|
  {
    SumNonnegative(Weights(c, s.db.rows));
    if actions != [] {
      StepKeepsInv(c, s, actions[0]);
      if Settles(s, actions[0]) {
        SettlingSpends(c, s, actions[0]);
      } else {
        OthersSpendNothing(c, s, actions[0]);
      }
      SettlementsAreBounded(c, Apply(c, s, actions[0]), actions[1..]);
      RunKeepsInv(c, s, actions);
      SumNonnegative(Weights(c, Runs(c, s, actions).db.rows));
    }
  }

  /**
   Nothing sticks: whatever runs meanwhile, a pending row that is as it was when last touched is
   claimable once the horizon has passed since then, by any idle relay, which then holds it.
   */
  lemma PendingRowBecomesClaimable(c: Config, now: Time, before: seq<Action>, after: seq<Action>, id: EventId, r: Owner)
    requires c.maxAttempts >= 1 && c.batchSize >= 1 && c.lease >= 1
    requires var s0 := Runs(c, Initial(now), before);
             && id in s0.db.rows && Pending(s0.db.rows[id])
             && var s := Runs(c, s0, after);
                id in s.db.rows && s.db.rows[id] == s0.db.rows[id] && s0.db.now + c.Horizon() < s.db.now
    ensures var s := Runs(c, Runs(c, Initial(now), before), after);
            && Claimable(s.db.rows[id], c.maxAttempts, s.db.now)
            && (RelayOf(s, r).queue == [] && RelayOf(s, r).stage.Idle? ==>
                  var claimed := Apply(c, s, Poll(r, [id]));
                  && HeldBy(claimed.db.rows[id], r, claimed.db.now)
                  && RelayOf(claimed, r).queue == [Work(id, s.db.rows[id].eventName, s.db.rows[id].attempts)])
  {
    InitialInv(c, now);
    RunKeepsInv(c, Initial(now), before);
    var s0 := Runs(c, Initial(now), before);
    var s := Runs(c, s0, after);
    assert RowOk(c, s0.db.now, s0.db.rows[id]);
    if RelayOf(s, r).queue == [] && RelayOf(s, r).stage.Idle? {
      assert CanPoll(c, s, r, [id]) && id in Elements([id]);
    }
  }

  /** The claim and update windows of a row never overlap: a held row is out of every claim's reach. */
  lemma HeldRowsCannotBeClaimed(c: Config, s: State, r: Owner, id: EventId, other: Owner, order: seq<EventId>)
    requires Accepts(s.db.rows, id, r, s.db.now)
    ensures var s' := Apply(c, s, Poll(other, order));
            && id in s'.db.rows && s'.db.rows[id] == s.db.rows[id] && Accepts(s'.db.rows, id, r, s'.db.now)
            && (RelayOf(s, other).queue == [] ==> forall k :: 0 <= k < |RelayOf(s', other).queue| ==> RelayOf(s', other).queue[k].id != id)
  {
    assert CanPoll(c, s, other, order) ==> id !in order;
  }

  /**
   An operator's replay of dead letters, all of which must be dead letters, makes every one of them
   pending again with no failed attempt counted, and any idle relay can claim it at once; a replay
   that names anything else changes nothing.
   */
  lemma ReplayedRowsComeBack(c: Config, s: State, ids: set<EventId>, id: EventId, r: Owner)
    requires Inv(c, s) && id in ids && c.batchSize >= 1 && c.lease >= 1
    ensures var s' := Apply(c, s, Replay(ids));
            if forall i :: i in ids ==> i in s.db.rows && s.db.rows[i].publishedAt.None? && s.db.rows[i].deadLetteredAt.Some? then
              && id in s'.db.rows && Pending(s'.db.rows[id]) && s'.db.rows[id].attempts == 0
              && (RelayOf(s, r).queue == [] && RelayOf(s, r).stage.Idle? && c.maxAttempts >= 1 ==>
                    HeldBy(Apply(c, s', Poll(r, [id])).db.rows[id], r, s.db.now))
            else s' == s
  {
    var s' := Apply(c, s, Replay(ids));
    assert AllDeadLettered(s.db.rows, ids) <==> forall i :: i in ids ==> i in s.db.rows && DeadLettered(s.db.rows[i]);
    if AllDeadLettered(s.db.rows, ids) {
      assert id in s'.db.rows && Claimable(s'.db.rows[id], 1, s'.db.now);
      if RelayOf(s, r).queue == [] && RelayOf(s, r).stage.Idle? && c.maxAttempts >= 1 {
        assert CanPoll(c, s', r, [id]) && id in Elements([id]);
      }
    }
  }
}
