/**
 The outbox stores as objects that own the two tables: the relay store, the handler tracker and
 the maintenance store and service.  Each method is proved to do what `Exec` says its statement
 does, and to select the rows its query promises.
 */
module OutboxStore {
  import opened Wrappers
  import opened OutboxTable

  /** What `claimBatch` returns for one row. */
  datatype ClaimedEvent = ClaimedEvent(id: EventId, eventName: EventName, attempts: nat)

  function Rows(rows: Table, ids: seq<EventId>): (claimed: seq<ClaimedEvent>)
    requires forall id | id in ids :: id in rows
    ensures forall e :: e in claimed ==> e.id in ids && e == ClaimedEvent(e.id, rows[e.id].eventName, rows[e.id].attempts)
  {
    seq(|ids|, k requires 0 <= k < |ids| => ClaimedEvent(ids[k], rows[ids[k]].eventName, rows[ids[k]].attempts))
  }

  predicate EveryOlder(rows: Table, chosen: set<EventId>, id: EventId)
    requires id in rows && forall k | k in chosen :: k in rows
  {
    forall k | k in chosen :: rows[k].occurredAt <= rows[id].occurredAt
  }

  /** The rows a claim may take: claimable and not locked by a concurrent statement. */
  function Candidates(rows: Table, c: Config, now: Time, locked: set<EventId>): set<EventId> {
    set id | id in rows && id !in locked && Claimable(rows[id], c.maxAttempts, now)
  }

  function Expired(rows: Table, cutoff: Time, locked: set<EventId>): set<EventId> {
    set id | id in rows && id !in locked && PublishedBefore(rows[id], cutoff)
  }

  predicate PurgedEarlier(rows: Table, cutoff: Time, a: EventId, b: EventId)
    requires a in rows && b in rows && PublishedBefore(rows[a], cutoff) && PublishedBefore(rows[b], cutoff)
  {
    var at, bt := rows[a].publishedAt.value, rows[b].publishedAt.value;
    at < bt || (at == bt && a <= b)
  }

  datatype ReplayError = NoIds | Ineligible(ids: set<EventId>) | SelectionChanged

  datatype CleanupResult = CleanupResult(eligible: nat, deleted: set<EventId>, dryRun: bool)

  class OutboxDatabase {
    var rows: Table
    var log: HandlerLog
    var now: Time

    ghost function Contents(): Db reads this { Db(rows, log, now) }

    /** ORDER BY occurredAt LIMIT n FOR UPDATE SKIP LOCKED. */
    method SelectBatch(c: Config, locked: set<EventId>) returns (batch: seq<EventId>)
      ensures Distinct(batch) && |batch| <= c.batchSize
      ensures var ids := set id | id in batch;
              && ids <= Candidates(rows, c, now, locked)
              && (ids == Candidates(rows, c, now, locked) || |batch| == c.batchSize)
              && forall id :: id in Candidates(rows, c, now, locked) - ids ==> EveryOlder(rows, ids, id)
    {
      var left := Candidates(rows, c, now, locked);
      batch := [];
      ghost var taken: set<EventId> := {};
      while left != {} && |batch| < c.batchSize
        invariant taken + left == Candidates(rows, c, now, locked) && taken !! left
        invariant taken == (set id | id in batch) && Distinct(batch) && |batch| <= c.batchSize
        invariant forall id :: id in left ==> EveryOlder(rows, taken, id)
        decreases left
      {
        var next := Oldest(left);
        left := left - {next};
        taken := taken + {next};
        batch := batch + [next];
      }
    }

    /** The selected rows are leased to the owner and returned with their attempt counts. */
    method ClaimBatch(c: Config, owner: Owner, locked: set<EventId>) returns (claimed: seq<ClaimedEvent>)
      modifies this`rows
      ensures var ids := set e | e in claimed :: e.id;
              && Contents() == Exec(c, old(Contents()), Claim(owner, ids))
              && ids <= Candidates(old(rows), c, now, locked)
              && (ids == Candidates(old(rows), c, now, locked) || |claimed| == c.batchSize)
              && forall id :: id in Candidates(old(rows), c, now, locked) - ids ==> EveryOlder(old(rows), ids, id)
      ensures |claimed| <= c.batchSize && Distinct(seq(|claimed|, k requires 0 <= k < |claimed| => claimed[k].id))
      ensures forall e :: e in claimed ==>
                && e.id in old(rows) && e.attempts == old(rows)[e.id].attempts && e.eventName == old(rows)[e.id].eventName
                && e.id !in locked && old(rows)[e.id].publishedAt.None? && old(rows)[e.id].deadLetteredAt.None?
                && old(rows)[e.id].attempts < c.maxAttempts && (old(rows)[e.id].leaseUntil.None? || old(rows)[e.id].leaseUntil.value < now)
      ensures rows.Keys == old(rows).Keys
      ensures forall id :: id in rows ==>
                rows[id] == if exists e :: e in claimed && e.id == id
                            then old(rows)[id].(lockedAt := Some(now), lockOwner := Some(owner), leaseUntil := Some(now + c.lease))
                            else old(rows)[id]
    {
      var batch := SelectBatch(c, locked);
      var ids := set id | id in batch;
      assert forall id :: id in batch ==> id in ids;
      claimed := Rows(rows, batch);
      assert (set e | e in claimed :: e.id) == ids by {
        forall id | id in batch ensures id in (set e | e in claimed :: e.id) {
          var k :| 0 <= k < |batch| && batch[k] == id;
          assert claimed[k] in claimed && claimed[k].id == id;
        }
        forall e | e in claimed ensures e.id in batch {}
      }
      rows := ClaimedRows(rows, owner, ids, c, now);
    }

    method Oldest(ids: set<EventId>) returns (oldest: EventId)
      requires ids != {} && ids <= rows.Keys
      ensures oldest in ids && forall id :: id in ids ==> rows[oldest].occurredAt <= rows[id].occurredAt
    {
      oldest :| oldest in ids;
      var left := ids - {oldest};
      while left != {}
        invariant left <= ids && oldest in ids
        invariant forall id :: id in ids - left ==> rows[oldest].occurredAt <= rows[id].occurredAt
        decreases left
      {
        var id :| id in left;
        if rows[id].occurredAt < rows[oldest].occurredAt { oldest := id; }
        left := left - {id};
      }
    }

    method UpdateClaimed(c: Config, id: EventId, owner: Owner, update: Update) returns (updated: bool)
      modifies this`rows
      ensures Contents() == Exec(c, old(Contents()), Statement.UpdateClaimed(owner, id, update))
      ensures updated <==>
                && id in old(rows) && old(rows)[id].publishedAt.None? && old(rows)[id].deadLetteredAt.None?
                && old(rows)[id].lockOwner == Some(owner) && old(rows)[id].leaseUntil.Some? && now < old(rows)[id].leaseUntil.value
      ensures !updated ==> rows == old(rows)
      ensures updated ==>
                var free := old(rows)[id].(lockedAt := None, lockOwner := None);
                rows == old(rows)[id := if update.Publish? then free.(publishedAt := Some(update.at), leaseUntil := None)
                                        else free.(attempts := free.attempts + 1, leaseUntil := update.retryAt, deadLetteredAt := update.deadLetteredAt)]
    {
      updated := id in rows && HeldBy(rows[id], owner, now);
      if updated { rows := rows[id := Updated(rows[id], update)]; }
    }

    method RenewClaims(c: Config, owner: Owner, ids: set<EventId>) returns (renewed: set<EventId>)
      modifies this`rows
      ensures Contents() == Exec(c, old(Contents()), Renew(owner, ids))
      ensures forall id :: id in renewed <==>
                && id in ids && id in old(rows) && old(rows)[id].publishedAt.None? && old(rows)[id].deadLetteredAt.None?
                && old(rows)[id].lockOwner == Some(owner) && old(rows)[id].leaseUntil.Some? && now < old(rows)[id].leaseUntil.value
      ensures rows.Keys == old(rows).Keys
      ensures forall id :: id in rows ==>
                rows[id] == if id in renewed then old(rows)[id].(lockedAt := Some(now), leaseUntil := Some(now + c.lease)) else old(rows)[id]
    {
      renewed := RenewedIds(rows, owner, ids, now);
      rows := RenewedRows(rows, owner, ids, c, now);
    }

    method HasSucceeded(id: EventId, handler: HandlerName) returns (done: bool)
      ensures done <==> (id, handler) in log && log[(id, handler)]
    {
      done := (id, handler) in log && log[(id, handler)];
    }

    /** The upsert throws when the event row is gone (foreign key) or the database is unavailable. */
    method RecordResult(c: Config, id: EventId, handler: HandlerName, success: bool, available: bool) returns (stored: bool)
      modifies this`log
      ensures stored == (available && id in rows)
      ensures Contents() == if available then Exec(c, old(Contents()), Record(id, handler, success)) else old(Contents())
      ensures log == if stored then old(log)[(id, handler) := success] else old(log)
    {
      stored := available && id in rows;
      if stored { log := log[(id, handler) := success]; }
    }

    /** Selects the dead letters under lock, and requeues all of them or none. */
    method RequeueDeadLetters(c: Config, ids: seq<EventId>) returns (replayed: set<EventId>)
      modifies this`rows
      ensures Contents() == Exec(c, old(Contents()), Requeue(set id | id in ids))
      ensures replayed == if AllDeadLettered(old(rows), set id | id in ids) then (set id | id in ids) else {}
      ensures replayed != {} ==> forall id :: id in ids ==>
                id in old(rows) && old(rows)[id].publishedAt.None? && old(rows)[id].deadLetteredAt.Some?
      ensures rows.Keys == old(rows).Keys
      ensures forall id :: id in rows ==>
                rows[id] == if id in replayed
                            then old(rows)[id].(attempts := 0, deadLetteredAt := None, lockedAt := None, lockOwner := None, leaseUntil := None)
                            else old(rows)[id]
    {
      var unique := set id | id in ids;
      if unique == {} {
        assert forall id :: id in rows ==> RequeuedRows(rows, {})[id] == rows[id];
        return {};
      }
      var lockedRows := set id | id in unique && id in rows && DeadLettered(rows[id]);
      SubsetSize(lockedRows, unique);
      assert lockedRows == unique <==> AllDeadLettered(rows, unique);
      if |lockedRows| != |unique| { return {}; }
      rows := map id | id in rows :: if id in lockedRows then Requeued(rows[id]) else rows[id];
      return unique;
    }

    method CountPublishedBefore(cutoff: Time) returns (count: nat)
      ensures count == |Expired(rows, cutoff, {})|
      ensures count == |set id | id in rows && rows[id].publishedAt.Some? && rows[id].publishedAt.value < cutoff|
    {
      count := |set id | id in rows && PublishedBefore(rows[id], cutoff)|;
      assert (set id | id in rows && PublishedBefore(rows[id], cutoff)) == Expired(rows, cutoff, {});
      assert (set id | id in rows && rows[id].publishedAt.Some? && rows[id].publishedAt.value < cutoff) == Expired(rows, cutoff, {});
    }

    method SelectPublished(cutoff: Time, limit: int, locked: set<EventId>) returns (selected: set<EventId>)
      ensures selected <= Expired(rows, cutoff, locked)
      ensures if limit <= 0 then selected == {}
              else |selected| <= limit && (|selected| == limit || selected == Expired(rows, cutoff, locked))
      ensures forall a, b :: a in selected && b in Expired(rows, cutoff, locked) - selected ==> PurgedEarlier(rows, cutoff, a, b)
    {
      selected := {};
      var left := Expired(rows, cutoff, locked);
      while left != {} && |selected| < limit
        invariant selected + left == Expired(rows, cutoff, locked) && selected !! left
        invariant if limit <= 0 then selected == {} else |selected| <= limit
        invariant forall a, b :: a in selected && b in left ==> PurgedEarlier(rows, cutoff, a, b)
        decreases left
      {
        var next := FirstPublished(cutoff, left);
        left := left - {next};
        selected := selected + {next};
      }
    }

    method DeletePublishedBefore(c: Config, cutoff: Time, limit: int, locked: set<EventId>) returns (deleted: set<EventId>)
      modifies this`rows, this`log
      ensures Contents() == Exec(c, old(Contents()), DeletePublished(deleted, cutoff))
      ensures deleted <= Expired(old(rows), cutoff, locked)
      ensures if limit <= 0 then deleted == {}
              else |deleted| <= limit && (|deleted| == limit || deleted == Expired(old(rows), cutoff, locked))
      ensures forall a, b :: a in deleted && b in Expired(old(rows), cutoff, locked) - deleted ==>
                PurgedEarlier(old(rows), cutoff, a, b)
      ensures rows == old(rows) - deleted && forall k :: k in log <==> k in old(log) && k.0 !in deleted
      ensures forall id :: id in deleted ==> id in old(rows) && old(rows)[id].publishedAt.Some? && old(rows)[id].publishedAt.value < cutoff
    {
      deleted := SelectPublished(cutoff, limit, locked);
      assert DeletedIds(rows, deleted, cutoff) == deleted;
      log := LogWithout(log, deleted);
      rows := rows - deleted;
    }

    method FirstPublished(cutoff: Time, ids: set<EventId>) returns (first: EventId)
      requires ids != {} && forall id :: id in ids ==> id in rows && PublishedBefore(rows[id], cutoff)
      ensures first in ids && forall id :: id in ids ==> PurgedEarlier(rows, cutoff, first, id)
    {
      first :| first in ids;
      var left := ids - {first};
      while left != {}
        invariant left <= ids && first in ids
        invariant forall id :: id in ids && id !in left ==> PurgedEarlier(rows, cutoff, first, id)
        decreases left
      {
        var id :| id in left;
        if !PurgedEarlier(rows, cutoff, first, id) { first := id; }
        left := left - {id};
      }
    }

    /** Statements that other processes run between two statements of this call. */
    method Others(c: Config, gap: seq<Statement>)
      modifies this
      ensures Contents() == ExecAll(c, old(Contents()), gap)
    {
      var k := 0;
      while k < |gap|
        invariant 0 <= k <= |gap|
        invariant ExecAll(c, Contents(), gap[k..]) == ExecAll(c, old(Contents()), gap)
      {
        var db := Exec(c, Db(rows, log, now), gap[k]);
        assert gap[k..][1..] == gap[k + 1..];
        rows, log, now := db.rows, db.log, db.now;
        k := k + 1;
      }
    }

    /**
     An operator replays dead letters.  `ids` are the trimmed, non-empty ids.  Either every one
     of them is requeued, with nothing else touched, or this call changes nothing at all.
     */
    method ReplayDeadLetters(c: Config, ids: seq<EventId>, gap: seq<Statement>) returns (r: Result<set<EventId>, ReplayError>)
      modifies this
      ensures var wanted := set id | id in ids;
              && (r.Success? <==> wanted != {} && AllDeadLettered(old(rows), wanted)
                                  && AllDeadLettered(ExecAll(c, old(Contents()), gap).rows, wanted))
              && (r.Success? ==> r.value == wanted && Contents() == Exec(c, ExecAll(c, old(Contents()), gap), Requeue(wanted)))
              && (r == Failure(SelectionChanged) ==> Contents() == ExecAll(c, old(Contents()), gap))
              && (r.Failure? && !r.error.SelectionChanged? ==> Contents() == old(Contents()))
              && (r.Failure? && r.error.Ineligible? ==>
                    r.error.ids == set id | id in ids && !(id in old(rows) && DeadLettered(old(rows)[id])))
    {
      var unique := set id | id in ids;
      if unique == {} { return Failure(NoIds); }
      var eligible := set id | id in unique && id in rows && DeadLettered(rows[id]);
      var ineligible := unique - eligible;
      assert ineligible == {} <==> AllDeadLettered(rows, unique) by {
        assert forall id :: id in unique && !(id in rows && DeadLettered(rows[id])) ==> id in ineligible;
      }
      if ineligible != {} { return Failure(Ineligible(ineligible)); }
      Others(c, gap);
      label requeue:
      var replayed := RequeueDeadLetters(c, ids);
      assert replayed == if AllDeadLettered(old@requeue(rows), unique) then unique else {};
      assert |unique| > 0;
      if |replayed| != |unique| { return Failure(SelectionChanged); }
      return Success(unique);
    }

    /** A dry run, the default, deletes nothing; a real run counts, lets others run, and stays within the limit. */
    method CleanupPublished(c: Config, cutoff: Time, limit: int, dryRun: bool, gap: seq<Statement>, locked: set<EventId>)
      returns (r: Result<CleanupResult, ()>)
      modifies this
      ensures r.Success? <==> limit > 0
      ensures r.Success? ==> r.value.eligible == |Expired(old(rows), cutoff, {})|
      ensures r.Failure? || dryRun || r.value.eligible == 0 ==> Contents() == old(Contents()) && (r.Success? ==> r.value.deleted == {})
      ensures r.Success? && !dryRun && r.value.eligible > 0 ==>
                var met := ExecAll(c, old(Contents()), gap);
                && Contents() == Exec(c, met, DeletePublished(r.value.deleted, cutoff))
                && r.value.deleted <= Expired(met.rows, cutoff, locked) && |r.value.deleted| <= limit
                && (|r.value.deleted| == limit || r.value.deleted == Expired(met.rows, cutoff, locked))
    {
      if limit <= 0 { return Failure(()); }
      var eligible := CountPublishedBefore(cutoff);
      if dryRun || eligible == 0 { return Success(CleanupResult(eligible, {}, dryRun)); }
      Others(c, gap);
      var deleted := DeletePublishedBefore(c, cutoff, limit, locked);
      return Success(CleanupResult(eligible, deleted, false));
    }
  }

  lemma SubsetSize<T>(a: set<T>, b: set<T>)
    requires a <= b
    ensures |a| == |b| <==> a == b
  {
    assert b == a + (b - a);
    assert |b| == |a| + |b - a|;
  }
}
