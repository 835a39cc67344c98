/** What renewing a lease is for: a relay that keeps its heartbeat going does not lose its rows. */
module OutboxHeartbeat {
  import opened Wrappers
  import opened OutboxTable
  import opened OutboxProtocol
  import opened OutboxSafety
  import opened OutboxDrain

  /** The relay holds the row, for at least this long. */
  predicate HeldFor(s: State, r: Owner, id: EventId, left: nat) {
    && id in s.db.rows && Pending(s.db.rows[id]) && s.db.rows[id].lockOwner == Some(r)
    && s.db.rows[id].leaseUntil.Some? && s.db.now + left <= s.db.rows[id].leaseUntil.value
  }

  /** The relay itself updates the row. */
  predicate OwnUpdate(s: State, a: Action, r: Owner, id: EventId) {
    (a.MarkPublished? || a.MarkFailed?) && a.r == r && RelayOf(s, r).queue != [] && Head(s, r).id == id
  }

  /** The timer fires with the row among the active ids and no earlier renewal under way. */
  predicate Beats(s: State, a: Action, r: Owner, id: EventId) {
    a == Heartbeat(r) && RelayOf(s, r).beat.None? && id in RelayOf(s, r).active
  }

  lemma StatementKeepsHeld(c: Config, s: State, statement: Statement, r: Owner, id: EventId, left: nat)
    requires HeldFor(s, r, id, left) && left > 0 && !statement.Tick?
    requires statement.Insert? ==> statement.id != id
    requires statement.UpdateClaimed? ==> statement.owner != r || statement.id != id
    requires statement.Renew? && statement.owner == r && id in statement.ids ==> left <= c.lease
    ensures HeldFor(Sql(c, s, statement), r, id, left)
  {
  }

  lemma StepKeepsHeld(c: Config, s: State, a: Action, r: Owner, id: EventId, left: nat)
    requires Inv(c, s) && HeldFor(s, r, id, left) && 0 < left <= c.lease && !a.Tick? && !OwnUpdate(s, a, r, id)
    ensures HeldFor(Apply(c, s, a), r, id, left)
  {
    StepIsAStatement(c, s, a);
    if Apply(c, s, a).db.rows != s.db.rows { StatementKeepsHeld(c, s, StatementOf(c, s, a).value, r, id, left); }
    ClockStands(c, s, a);
  }

  lemma ClockStands(c: Config, s: State, a: Action)
    requires !a.Tick?
    ensures Apply(c, s, a).db.now == s.db.now
  {
  }

  /** A heartbeat gives a held row the whole lease again. */
  lemma BeatRenews(c: Config, s: State, r: Owner, id: EventId)
    requires HeldFor(s, r, id, 1) && Beats(s, Heartbeat(r), r, id)
    ensures var s' := Apply(c, s, Heartbeat(r));
            && HeldFor(s', r, id, c.lease) && s'.db.rows[id].attempts == s.db.rows[id].attempts
            && id in RelayOf(s', r).active && id in RelayOf(s', r).beat.value.renewed
  {
  }

  /**
   One heartbeat carries a row over any time shorter than the lease, and meanwhile no other relay
   can claim it.
   */
  lemma OneBeatLastsTheLease(c: Config, s: State, r: Owner, id: EventId, elapsed: nat, other: Owner, order: seq<EventId>)
    requires HeldFor(s, r, id, 1) && Beats(s, Heartbeat(r), r, id) && elapsed < c.lease
    ensures var s' := Apply(c, Apply(c, s, Heartbeat(r)), Action.Tick(elapsed));
            && Accepts(s'.db.rows, id, r, s'.db.now)
            && Accepts(Apply(c, s', Poll(other, order)).db.rows, id, r, s'.db.now)
            && (CanPoll(c, s', other, order) ==> id !in order)
  {
    BeatRenews(c, s, r, id);
    var s' := Apply(c, Apply(c, s, Heartbeat(r)), Action.Tick(elapsed));
    HeldRowsCannotBeClaimed(c, s', r, id, other, order);
  }

  /**
   A run in which the relay does not update the row itself and its heartbeats come closer together
   than the lease; `since` is the time since the last one, or since the claim.
   */
  predicate KeepsBeating(c: Config, s: State, actions: seq<Action>, r: Owner, id: EventId, since: nat)
    decreases |actions|
  {
    actions == []
    || (var a := actions[0];
        && !OwnUpdate(s, a, r, id) && (a.Tick? ==> since + a.elapsed < c.lease)
        && KeepsBeating(c, Apply(c, s, a), actions[1..], r, id, if Beats(s, a, r, id) then 0 else if a.Tick? then since + a.elapsed else since))
  }

  /** Whatever the rest of the system does, such a relay never loses the row. */
  lemma {:induction false} BeatingKeepsTheRow(c: Config, s: State, actions: seq<Action>, r: Owner, id: EventId, since: nat)
    requires Inv(c, s) && since < c.lease && HeldFor(s, r, id, c.lease - since) && KeepsBeating(c, s, actions, r, id, since)
    ensures var s' := Runs(c, s, actions); Accepts(s'.db.rows, id, r, s'.db.now)
    decreases |actions|
  {
    if actions != [] {
      var a := actions[0];
      var s' := Apply(c, s, a);
      StepKeepsInv(c, s, a);
      if Beats(s, a, r, id) {
        BeatRenews(c, s, r, id);
        BeatingKeepsTheRow(c, s', actions[1..], r, id, 0);
      } else if a.Tick? {
        BeatingKeepsTheRow(c, s', actions[1..], r, id, since + a.elapsed);
      } else {
        StepKeepsHeld(c, s, a, r, id, c.lease - since);
        BeatingKeepsTheRow(c, s', actions[1..], r, id, since);
      }
    }
  }

  /** From the claim on: a row that a relay has just claimed stays its own as long as it keeps beating. */
  lemma ClaimedRowsAreKept(c: Config, s: State, r: Owner, order: seq<EventId>, actions: seq<Action>, id: EventId)
    requires Inv(c, s) && c.lease > 0 && CanPoll(c, s, r, order) && id in order
    requires KeepsBeating(c, Apply(c, s, Poll(r, order)), actions, r, id, 0)
    ensures var s' := Runs(c, Apply(c, s, Poll(r, order)), actions); Accepts(s'.db.rows, id, r, s'.db.now)
  {
    StepKeepsInv(c, s, Poll(r, order));
    assert id in Elements(order);
    BeatingKeepsTheRow(c, Apply(c, s, Poll(r, order)), actions, r, id, 0);
  }
}
