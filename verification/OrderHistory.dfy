/**
 One order from end to end: concurrent version-checked status updates on the write side, and on
 the read side any delivery of the resulting events, duplicates and rebuilds included.
 */
module OrderHistory {
  import opened Wrappers
  import opened OrderStatus
  import P = ProjectionWriter

  /** An `OrderStatusChanged` event as stored in the outbox with its source version. */
  datatype StatusChanged = StatusChanged(oldStatus: Status, newStatus: Status, sourceVersion: nat)

  /** A request between reading the order and committing: the transitioned aggregate. */
  datatype Request = Request(expectedVersion: nat, oldStatus: Status, newStatus: Status)

  datatype State = State(
    status: Status,
    version: nat,
    events: seq<StatusChanged>,
    cancellations: seq<nat>,  // source versions of `OrderCancelled` events
    requests: map<nat, Request>,
    conflicts: nat,
    projection: P.State<Status>)

  datatype Action =
    | Read(q: nat, target: Status)
    | Commit(q: nat)
    | DeliverPlaced(p: nat)
    | DeliverStatus(p: nat, k: nat)
    | Rebuild(p: nat)
    | Step(p: nat)
    | Fail(p: nat)

  /** Read, hydrate and transition; an illegal target is rejected and leaves nothing behind. */
  function DoRead(s: State, q: nat, target: Status): State {
    if q in s.requests || !CanTransition(s.status, target) then s
    else s.(requests := s.requests[q := Request(s.version, s.status, target)])
  }

  /** One transaction: the version check, the increment, and the stamped events. */
  function DoCommit(s: State, q: nat): State {
    if q !in s.requests then s
    else
      var r := s.requests[q];
      var s' := s.(requests := s.requests - {q});
      if s.version != r.expectedVersion then s'.(conflicts := s.conflicts + 1)
      else
        s'.(status := r.newStatus, version := s.version + 1,
            events := s.events + [StatusChanged(r.oldStatus, r.newStatus, r.expectedVersion + 1)],
            cancellations := if r.newStatus.CANCELLED? then s.cancellations + [r.expectedVersion + 1] else s.cancellations)
  }

  function Project(s: State, a: P.Action<Status>): State {
    s.(projection := P.Apply(s.projection, a))
  }

  /** The projection action, if any, that an action performs. */
  function ProjectionAction(s: State, a: Action): Option<P.Action<Status>> {
    match a
    case DeliverPlaced(p) => Some(P.Spawn(p, P.SnapshotWriter, P.Snapshot(0, PENDING)))
    case DeliverStatus(p, k) =>
      if k < |s.events|
      then Some(P.Spawn(p, P.StatusHandler, P.Snapshot(s.events[k].sourceVersion, s.events[k].newStatus))) else None
    case Rebuild(p) => Some(P.Spawn(p, P.SnapshotWriter, P.Snapshot(s.version, s.status)))
    case Step(p) => Some(P.Step(p, false))
    case Fail(p) => Some(P.Fail(p))
    case _ => None
  }

  function Apply(s: State, a: Action): State {
    match a
    case Read(q, target) => DoRead(s, q, target)
    case Commit(q) => DoCommit(s, q)
    case _ => if ProjectionAction(s, a).Some? then Project(s, ProjectionAction(s, a).value) else s
  }

  function Runs(s: State, actions: seq<Action>): State
    decreases |actions|
  {
    if actions == [] then s else Runs(Apply(s, actions[0]), actions[1..])
  }

  /** A placed order: PENDING at version 0, its projection not written yet. */
  const PLACED := State(PENDING, 0, [], [], map[], 0, P.Initial(None))

  /** The status the order had at a version, read off the events. */
  function StatusAt(events: seq<StatusChanged>, version: nat): Status
    requires version <= |events|
  {
    if version == 0 then PENDING else events[version - 1].newStatus
  }

  // ---------- write side ----------

  predicate ChainLink(events: seq<StatusChanged>, k: nat)
    requires k < |events|
  {
    && events[k].sourceVersion == k + 1
    && events[k].oldStatus == StatusAt(events, k)
    && CanTransition(events[k].oldStatus, events[k].newStatus)
  }

  /** The request transitioned a state the order really had. */
  predicate RequestOk(events: seq<StatusChanged>, r: Request) {
    && r.expectedVersion <= |events| && r.oldStatus == StatusAt(events, r.expectedVersion)
    && CanTransition(r.oldStatus, r.newStatus)
  }

  ghost predicate WriteOk(s: State) {
    && |s.events| == s.version && s.status == StatusAt(s.events, s.version)
    && (forall k :: 0 <= k < |s.events| ==> ChainLink(s.events, k))
    && s.cancellations == (if s.status.CANCELLED? then [s.version] else [])
    && (forall q :: q in s.requests ==> RequestOk(s.events, s.requests[q]))
  }

  // ---------- read side ----------

  /** The snapshot is one the order really went through. */
  predicate Genuine(s: State, snapshot: P.Snapshot<Status>) {
    snapshot.version <= |s.events| && snapshot.value == StatusAt(s.events, snapshot.version)
  }

  ghost predicate ReadOk(s: State) {
    && P.Inv(s.projection) && P.NoClash(s.projection)
    && (s.projection.row.Some? ==> Genuine(s, s.projection.row.value))
    && forall p :: p in s.projection.procs ==> Genuine(s, s.projection.procs[p].snapshot)
  }

  ghost predicate Inv(s: State) { WriteOk(s) && ReadOk(s) && P.FromAWriter(None, s.projection) }

  lemma StatusAtPrefix(events: seq<StatusChanged>, e: StatusChanged)
    ensures forall k :: 0 <= k <= |events| ==> StatusAt(events + [e], k) == StatusAt(events, k)
  {
  }

  lemma CommitKeepsWriteOk(s: State, q: nat)
    requires WriteOk(s)
    ensures WriteOk(DoCommit(s, q)) && s.events <= DoCommit(s, q).events
  {
    if q in s.requests && s.version == s.requests[q].expectedVersion {
      var r := s.requests[q];
      assert RequestOk(s.events, r);
      var e := StatusChanged(r.oldStatus, r.newStatus, r.expectedVersion + 1);
      StatusAtPrefix(s.events, e);
      var s' := DoCommit(s, q);
      assert s'.events == s.events + [e];
      forall k | 0 <= k < |s'.events| ensures ChainLink(s'.events, k) {
        if k < |s.events| { assert ChainLink(s.events, k); }
      }
      forall p | p in s'.requests ensures RequestOk(s'.events, s'.requests[p]) { assert RequestOk(s.events, s.requests[p]); }
    }
  }

  lemma GrowthKeepsReadOk(s: State, s': State)
    requires ReadOk(s) && s'.projection == s.projection && s.events <= s'.events
    ensures ReadOk(s')
  {
    forall snapshot | Genuine(s, snapshot) ensures Genuine(s', snapshot) {}
  }

  lemma SnapshotsStay(t: P.State<Status>, a: P.Action<Status>, p: nat)
    requires p in P.Apply(t, a).procs
    ensures var t' := P.Apply(t, a);
            if p in t.procs then t'.procs[p].snapshot == t.procs[p].snapshot else a.Spawn? && t'.procs[p].snapshot == a.snapshot
  {
  }

  lemma RowComesFromTheStep(t: P.State<Status>, a: P.Action<Status>)
    ensures var t' := P.Apply(t, a);
            t'.row == t.row || (a.Step? && a.p in t.procs && t'.row == Some(t.procs[a.p].snapshot))
  {
  }

  lemma NoClashStays(t: P.State<Status>, a: P.Action<Status>)
    requires P.NoClash(t) && (a.Step? ==> !a.slugTaken)
    ensures P.NoClash(P.Apply(t, a))
  {
  }

  lemma ProjectKeepsReadOk(s: State, a: P.Action<Status>)
    requires ReadOk(s) && (a.Step? ==> !a.slugTaken) && (a.Spawn? ==> Genuine(s, a.snapshot))
    ensures ReadOk(Project(s, a))
  {
    P.StepKeepsInv(s.projection, a);
    NoClashStays(s.projection, a);
    RowComesFromTheStep(s.projection, a);
    forall p | p in P.Apply(s.projection, a).procs ensures Genuine(s, P.Apply(s.projection, a).procs[p].snapshot) {
      SnapshotsStay(s.projection, a, p);
    }
  }

  lemma StepKeepsInv(s: State, a: Action)
    requires Inv(s)
    ensures Inv(Apply(s, a)) && s.events <= Apply(s, a).events
  {
    if a.Read? {
      GrowthKeepsReadOk(s, Apply(s, a));
    } else if a.Commit? {
      CommitKeepsWriteOk(s, a.q);
      GrowthKeepsReadOk(s, Apply(s, a));
    } else if ProjectionAction(s, a).Some? {
      if a.DeliverStatus? { assert ChainLink(s.events, a.k); }
      ProjectKeepsReadOk(s, ProjectionAction(s, a).value);
      P.StepKeepsOrigin(None, s.projection, ProjectionAction(s, a).value);
    }
  }

  lemma {:induction false} RunKeepsInv(s: State, actions: seq<Action>)
    requires Inv(s)
    ensures Inv(Runs(s, actions))
    decreases |actions|
  {
    if actions != [] {
      StepKeepsInv(s, actions[0]);
      RunKeepsInv(Apply(s, actions[0]), actions[1..]);
    }
  }

  lemma {:induction false} RankBoundsVersion(s: State, k: nat)
    requires WriteOk(s) && k <= |s.events|
    ensures k <= Rank(StatusAt(s.events, k)) <= 3
  {
    if k > 0 {
      RankBoundsVersion(s, k - 1);
      assert ChainLink(s.events, k - 1);
      TransitionsClimb(s.events[k - 1].oldStatus, s.events[k - 1].newStatus);
    }
  }

  ghost predicate LegalChain(s: State) {
    && |s.events| == s.version <= 3
    && (forall k :: 0 <= k < s.version ==>
          && s.events[k].sourceVersion == k + 1
          && s.events[k].oldStatus == (if k == 0 then PENDING else s.events[k - 1].newStatus)
          && CanTransition(s.events[k].oldStatus, s.events[k].newStatus))
    && s.status == (if s.version == 0 then PENDING else s.events[s.version - 1].newStatus)
    && s.cancellations == (if s.status.CANCELLED? then [s.version] else [])
  }

  lemma ChainIsLegal(s: State)
    requires WriteOk(s)
    ensures LegalChain(s)
  {
    RankBoundsVersion(s, |s.events|);
    forall k | 0 <= k < s.version
      ensures s.events[k].sourceVersion == k + 1
              && s.events[k].oldStatus == (if k == 0 then PENDING else s.events[k - 1].newStatus)
              && CanTransition(s.events[k].oldStatus, s.events[k].newStatus)
    {
      assert ChainLink(s.events, k);
    }
  }

  /**
   Write side, over every interleaving of concurrent updates: exactly one status event per
   version 1..n, chained old to new along legal transitions from PENDING to the current status,
   n at most 3, and one cancellation event exactly when the order ends cancelled.
   */
  lemma StatusEventsAreAChain(actions: seq<Action>)
    ensures LegalChain(Runs(PLACED, actions))
  {
    RunKeepsInv(PLACED, actions);
    ChainIsLegal(Runs(PLACED, actions));
  }

  /** Read side: whatever was delivered so far, the projected status is the one of its version. */
  lemma ProjectionIsGenuine(actions: seq<Action>)
    ensures var s := Runs(PLACED, actions);
            s.projection.row.Some? ==>
              var row := s.projection.row.value;
              row.version <= |s.events| == s.version && row.value == StatusAt(s.events, row.version)
  {
    RunKeepsInv(PLACED, actions);
  }

  /** The delivery returned, carries the current version, and did not update before the row existed. */
  predicate FoundTheRow(s: State, p: nat) {
    && p in s.projection.procs && s.projection.procs[p].snapshot.version == s.version
    && s.projection.procs[p].pc.Returned? && !s.projection.procs[p].gap
  }

  /**
   Convergence, exactly, in every run: whatever else was rejected, failed, repeated or is still
   under way, the projection equals the current order if and only if some delivery of the newest
   version has returned and did not run its update before the row existed.
   */
  lemma ConvergesIffNewestFoundTheRow(actions: seq<Action>)
    ensures var s := Runs(PLACED, actions);
            s.projection.row == Some(P.Snapshot(s.version, s.status)) <==> exists p :: FoundTheRow(s, p)
  {
    RunKeepsInv(PLACED, actions);
    var s := Runs(PLACED, actions);
    if s.projection.row == Some(P.Snapshot(s.version, s.status)) {
      var p :| p in s.projection.procs && P.Wrote(s.projection.procs[p], s.projection.row);
      assert FoundTheRow(s, p);
    }
    if p :| FoundTheRow(s, p) { assert P.ProcessOk(s.projection, s.projection.procs[p]); }
  }

  lemma {:induction false} RunStaysClear(s: State, actions: seq<Action>, p: nat)
    requires P.ClearOfTheGap(s.projection, p)
    ensures P.ClearOfTheGap(Runs(s, actions).projection, p)
    decreases |actions|
  {
    if actions != [] {
      if ProjectionAction(s, actions[0]).Some? { P.StepStaysClear(s.projection, ProjectionAction(s, actions[0]).value, p); }
      RunStaysClear(Apply(s, actions[0]), actions[1..], p);
    }
  }

  lemma {:induction false} RunsAppend(s: State, before: seq<Action>, after: seq<Action>)
    ensures Runs(s, before + after) == Runs(Runs(s, before), after)
    decreases |before|
  {
    if before == [] {
      assert before + after == after;
    } else {
      assert (before + after)[0] == before[0] && (before + after)[1..] == before[1..] + after;
      RunsAppend(Apply(s, before[0]), before[1..], after);
    }
  }

  /**
   What a dispatcher can see to in advance: deliver after the row exists.  Any delivery that starts
   then and returns with the newest version makes projection and order agree, under any further
   duplicates, rejections and failures.
   */
  lemma HandledAfterPlacedConverges(before: seq<Action>, after: seq<Action>, p: nat)
    requires var s := Runs(PLACED, before); s.projection.row.Some? && p !in s.projection.procs
    requires var s := Runs(PLACED, before + after);
             p in s.projection.procs && s.projection.procs[p].pc.Returned? && s.projection.procs[p].snapshot.version == s.version
    ensures var s := Runs(PLACED, before + after); s.projection.row == Some(P.Snapshot(s.version, s.status))
  {
    RunsAppend(PLACED, before, after);
    RunStaysClear(Runs(PLACED, before), after, p);
    assert FoundTheRow(Runs(PLACED, before + after), p);
    ConvergesIffNewestFoundTheRow(before + after);
  }

  /**
   So the projection does NOT converge merely because every event was handled successfully.  The
   status handler's update runs before the row exists, the placed event creates the row, the
   look-up then finds it, and the handler reports success: the projection stays PENDING.
   */
  const LOST_UPDATE: seq<Action> :=
    [Read(0, PROCESSING), Commit(0), DeliverStatus(1, 0), Step(1), DeliverPlaced(0), Step(0), Step(0), Step(1)]

  /** Everything handled, one of the deliveries carrying the current version, and yet behind. */
  predicate Stale(s: State) {
    && s.projection.procs.Keys == {0, 1} && s.projection.procs[0].pc.Returned? && s.projection.procs[1].pc.Returned?
    && s.projection.procs[1].snapshot == P.Snapshot(s.version, s.status)
    && s.version == 1 && s.projection.row == Some(P.Snapshot(0, PENDING))
  }

  /** The two deliveries before any of their statements ran. */
  function BothWaiting(): State {
    var s := Apply(Apply(Apply(PLACED, Read(0, PROCESSING)), Commit(0)), DeliverStatus(1, 0));
    Apply(Apply(s, Step(1)), DeliverPlaced(0))
  }

  lemma HandlerWentFirst()
    ensures var s, t := BothWaiting(), BothWaiting().projection;
            && s.version == 1 && s.status == PROCESSING
            && t.row.None? && t.procs.Keys == {0, 1}
            && t.procs[0] == P.Process(P.SnapshotWriter, P.Snapshot(0, PENDING), P.Updating, false, false)
            && t.procs[1] == P.Process(P.StatusHandler, P.Snapshot(1, PROCESSING), P.LookingUp, false, true)
  {
  }

  lemma StatusUpdateCanBeLost()
    ensures Stale(Runs(PLACED, LOST_UPDATE))
  {
    HandlerWentFirst();
    var s1 := Apply(PLACED, Read(0, PROCESSING));
    var s2 := Apply(s1, Commit(0));
    var s3 := Apply(s2, DeliverStatus(1, 0));
    var s4 := Apply(s3, Step(1));
    var s5 := BothWaiting();
    var s6 := Apply(s5, Step(0));
    var s7 := Apply(s6, Step(0));
    RunsCons(PLACED, Read(0, PROCESSING), LOST_UPDATE[1..]);
    RunsCons(s1, Commit(0), LOST_UPDATE[2..]);
    RunsCons(s2, DeliverStatus(1, 0), LOST_UPDATE[3..]);
    RunsCons(s3, Step(1), LOST_UPDATE[4..]);
    RunsCons(s4, DeliverPlaced(0), LOST_UPDATE[5..]);
    RunsCons(s5, Step(0), LOST_UPDATE[6..]);
    RunsCons(s6, Step(0), LOST_UPDATE[7..]);
    RunsCons(s7, Step(1), []);
    LookUpFindsTheNewRow(s5);
  }

  lemma LookUpFindsTheNewRow(s: State)
    requires s == BothWaiting()
    ensures Stale(Apply(Apply(Apply(s, Step(0)), Step(0)), Step(1)))
  {
    HandlerWentFirst();
    var s6 := Apply(s, Step(0));
    assert s6.projection.procs[0].pc == P.Creating;
    var s7 := Apply(s6, Step(0));
    assert s7.projection.row == Some(P.Snapshot(0, PENDING)) && s7.projection.procs[0].pc == P.Returned;
  }

  lemma RunsCons(s: State, a: Action, rest: seq<Action>)
    ensures forall actions: seq<Action> :: actions == [a] + rest ==> Runs(s, actions) == Runs(Apply(s, a), rest)
  {
    forall actions: seq<Action> | actions == [a] + rest ensures Runs(s, actions) == Runs(Apply(s, a), rest) {
      assert actions[1..] == rest;
    }
  }

  // ---------- undisturbed requests and deliveries ----------

  /** A legal status update that nobody overtakes commits: the order moves on by one version with one event. */
  lemma UncontestedUpdatesCommit(s: State, q: nat, target: Status)
    requires q !in s.requests && CanTransition(s.status, target)
    ensures var s' := Apply(Apply(s, Read(q, target)), Commit(q));
            && s'.status == target && s'.version == s.version + 1 && s'.conflicts == s.conflicts
            && s'.events == s.events + [StatusChanged(s.status, target, s.version + 1)]
            && s'.cancellations == (if target.CANCELLED? then s.cancellations + [s.version + 1] else s.cancellations)
            && s'.requests == s.requests && s'.projection == s.projection
  {
    assert s.requests[q := Request(s.version, s.status, target)] - {q} == s.requests;
  }

  /** An overtaken one changes nothing but the count of conflicts. */
  lemma OvertakenUpdatesConflict(s: State, q: nat)
    requires q in s.requests && s.requests[q].expectedVersion != s.version
    ensures Apply(s, Commit(q)) == s.(requests := s.requests - {q}, conflicts := s.conflicts + 1)
  {
  }

  function Stepped(s: State, p: nat): State { Apply(s, Step(p)) }

  lemma SteppingProjects(s: State, p: nat)
    ensures Stepped(s, p) == Project(s, P.Step(p, false))
  {
  }

  /** In any reachable state one undisturbed rebuild repairs the projection. */
  lemma UndisturbedRebuildConverges(s: State, p: nat)
    requires Inv(s) && p !in s.projection.procs
    ensures Stepped(Stepped(Stepped(Stepped(Apply(s, Rebuild(p)), p), p), p), p).projection.row == Some(P.Snapshot(s.version, s.status))
  {
    var s1 := Apply(s, Rebuild(p));
    SteppingProjects(s1, p);
    SteppingProjects(Stepped(s1, p), p);
    SteppingProjects(Stepped(Stepped(s1, p), p), p);
    SteppingProjects(Stepped(Stepped(Stepped(s1, p), p), p), p);
    P.UndisturbedWritersReturn(s.projection, p, P.Snapshot(s.version, s.status));
  }

  /** So does one undisturbed delivery of the newest event, once the row exists. */
  lemma UndisturbedDeliveryConverges(s: State, p: nat)
    requires Inv(s) && p !in s.projection.procs && s.version > 0 && s.projection.row.Some?
    ensures Stepped(Stepped(Apply(s, DeliverStatus(p, s.version - 1)), p), p).projection.row == Some(P.Snapshot(s.version, s.status))
  {
    var s1 := Apply(s, DeliverStatus(p, s.version - 1));
    SteppingProjects(s1, p);
    SteppingProjects(Stepped(s1, p), p);
    assert ChainLink(s.events, s.version - 1);
    P.UndisturbedHandlersAreExact(s.projection, p, P.Snapshot(s.version, s.status));
  }
}
