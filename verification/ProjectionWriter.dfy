/**
 Versioned projection rows.  Snapshot writers (update, create, retry, re-read) and status
 handlers (update, look up) run concurrently on one row; every statement is one atomic step and
 any other process may run between two of them.
 */
module ProjectionWriter {
  import opened Wrappers

  datatype Snapshot<+V> = Snapshot(version: nat, value: V)

  type Row<+V> = Option<Snapshot<V>>

  // ---------- statements ----------

  /** `updateMany where sourceVersion < version` finds the row. */
  predicate Matches<V>(row: Row<V>, s: Snapshot<V>) {
    row.Some? && row.value.version < s.version
  }

  function Update<V>(row: Row<V>, s: Snapshot<V>): Row<V> {
    if Matches(row, s) then Some(s) else row
  }

  function Create<V>(row: Row<V>, s: Snapshot<V>): Row<V> {
    if row.None? then Some(s) else row
  }

  predicate AtLeast<V>(row: Row<V>, version: nat) {
    row.Some? && row.value.version >= version
  }

  // ---------- processes ----------

  datatype Kind = SnapshotWriter | StatusHandler

  datatype Reason = Rethrown | MissingPrerequisite | Unavailable

  datatype Pc = Updating | Creating | Retrying | Rereading | LookingUp | Returned | Threw(reason: Reason)

  /**
   `clash`: another projection row held this snapshot's slug when one of its statements ran.
   `gap`: the status handler's update ran while the row did not exist yet.
   */
  datatype Process<V> = Process(kind: Kind, snapshot: Snapshot<V>, pc: Pc, clash: bool, gap: bool)

  /** `seen`: versions that met the existing row in an update, or that created it. */
  datatype State<V> = State(row: Row<V>, procs: map<nat, Process<V>>, seen: set<nat>)

  datatype Action<V> =
    | Spawn(p: nat, kind: Kind, snapshot: Snapshot<V>)
    | Step(p: nat, slugTaken: bool)
    | Fail(p: nat)

  predicate Active(pc: Pc) { !pc.Returned? && !pc.Threw? }

  function SetPc<V>(s: State<V>, p: nat, pc: Pc): State<V>
    requires p in s.procs
  {
    s.(procs := s.procs[p := s.procs[p].(pc := pc)])
  }

  function Clash<V>(s: State<V>, p: nat, pc: Pc): State<V>
    requires p in s.procs
  {
    s.(procs := s.procs[p := s.procs[p].(pc := pc, clash := true)])
  }

  function Meet<V>(s: State<V>, p: nat): State<V>
    requires p in s.procs
  {
    if s.row.Some? then s.(seen := s.seen + {s.procs[p].snapshot.version}) else s
  }

  /** The first update or the retry: matched, rejected by another unique key, or not matched. */
  function UpdateStep<V>(s: State<V>, p: nat, slugTaken: bool, next: Pc): State<V>
    requires p in s.procs
  {
    var snapshot := s.procs[p].snapshot;
    if Matches(s.row, snapshot) then
      if slugTaken then Clash(s, p, Threw(Rethrown))
      else SetPc(Meet(s, p), p, Returned).(row := Update(s.row, snapshot))
    else SetPc(Meet(s, p), p, next)
  }

  function WriterStep<V>(s: State<V>, p: nat, slugTaken: bool): State<V>
    requires p in s.procs
  {
    var snapshot := s.procs[p].snapshot;
    match s.procs[p].pc
    case Updating => UpdateStep(s, p, slugTaken, Creating)
    case Creating =>
      if s.row.Some? then SetPc(s, p, Retrying)
      else if slugTaken then Clash(s, p, Retrying)
      else SetPc(s, p, Returned).(row := Create(s.row, snapshot), seen := s.seen + {snapshot.version})
    case Retrying => UpdateStep(s, p, slugTaken, Rereading)
    case Rereading => SetPc(s, p, if AtLeast(s.row, snapshot.version) then Returned else Threw(Rethrown))
    case _ => s
  }

  function HandlerStep<V>(s: State<V>, p: nat): State<V>
    requires p in s.procs
  {
    match s.procs[p].pc
    case Updating =>
      if s.row.None? then s.(procs := s.procs[p := s.procs[p].(pc := LookingUp, gap := true)])
      else UpdateStep(s, p, false, LookingUp)
    case LookingUp => SetPc(s, p, if s.row.Some? then Returned else Threw(MissingPrerequisite))
    case _ => s
  }

  function Apply<V>(s: State<V>, a: Action<V>): State<V> {
    match a
    case Spawn(p, kind, snapshot) =>
      if p in s.procs then s else s.(procs := s.procs[p := Process(kind, snapshot, Updating, false, false)])
    case Step(p, slugTaken) =>
      if p !in s.procs then s
      else if s.procs[p].kind.SnapshotWriter? then WriterStep(s, p, slugTaken) else HandlerStep(s, p)
    case Fail(p) => if p in s.procs && Active(s.procs[p].pc) then SetPc(s, p, Threw(Unavailable)) else s
  }

  function Runs<V>(s: State<V>, actions: seq<Action<V>>): State<V>
    decreases |actions|
  {
    if actions == [] then s else Runs(Apply(s, actions[0]), actions[1..])
  }

  function Initial<V>(row: Row<V>): State<V> {
    State(row, map[], if row.Some? then {row.value.version} else {})
  }

  // ---------- what every run keeps ----------

  predicate ProcessOk<V>(s: State<V>, proc: Process<V>) {
    var v := proc.snapshot.version;
    match proc.kind
    case SnapshotWriter =>
      && !proc.gap
      && (proc.pc.Retrying? && !proc.clash ==> s.row.Some?)
      && (proc.pc.Rereading? && !proc.clash ==> v in s.seen)
      && (proc.pc.Returned? ==> AtLeast(s.row, v))
      && (proc.pc == Threw(Rethrown) ==> proc.clash)
      && !proc.pc.LookingUp? && proc.pc != Threw(MissingPrerequisite)
    case StatusHandler =>
      && !proc.clash && proc.pc != Threw(Rethrown)
      && (proc.pc.Updating? ==> !proc.gap)
      && (proc.pc.LookingUp? || proc.pc.Returned? ==> v in s.seen || proc.gap)
      && (proc.pc.Returned? ==> s.row.Some?)
      && (proc.pc == Threw(MissingPrerequisite) ==> proc.gap)
      && !proc.pc.Creating? && !proc.pc.Retrying? && !proc.pc.Rereading?
  }

  /** The row's version is exactly the highest version that ever met it. */
  ghost predicate SeenOk<V>(s: State<V>) {
    && (s.row.None? ==> s.seen == {})
    && (s.row.Some? ==> s.row.value.version in s.seen && forall v :: v in s.seen ==> v <= s.row.value.version)
  }

  ghost predicate Inv<V>(s: State<V>) {
    && SeenOk(s)
    && forall p :: p in s.procs ==> ProcessOk(s, s.procs[p])
  }

  predicate NoOlder<V>(row: Row<V>, row': Row<V>) {
    row.Some? ==> row'.Some? && row.value.version <= row'.value.version
  }

  lemma StepKeepsSeen<V>(s: State<V>, a: Action<V>)
    requires Inv(s)
    ensures SeenOk(Apply(s, a)) && NoOlder(s.row, Apply(s, a).row) && s.seen <= Apply(s, a).seen
  {
  }

  lemma WriterStepKeepsOk<V>(s: State<V>, p: nat, slugTaken: bool)
    requires Inv(s) && p in s.procs && s.procs[p].kind.SnapshotWriter?
    ensures ProcessOk(WriterStep(s, p, slugTaken), WriterStep(s, p, slugTaken).procs[p])
  {
    assert ProcessOk(s, s.procs[p]);
  }

  lemma HandlerStepKeepsOk<V>(s: State<V>, p: nat)
    requires Inv(s) && p in s.procs && s.procs[p].kind.StatusHandler?
    ensures ProcessOk(HandlerStep(s, p), HandlerStep(s, p).procs[p])
  {
    assert ProcessOk(s, s.procs[p]);
  }

  lemma StepKeepsInv<V>(s: State<V>, a: Action<V>)
    requires Inv(s)
    ensures Inv(Apply(s, a)) && NoOlder(s.row, Apply(s, a).row) && s.seen <= Apply(s, a).seen
  {
    StepKeepsSeen(s, a);
    var s' := Apply(s, a);
    forall p | p in s'.procs ensures ProcessOk(s', s'.procs[p]) {
      if p in s.procs { assert ProcessOk(s, s.procs[p]); }
      if a.Step? && p == a.p && p in s.procs {
        if s.procs[p].kind.SnapshotWriter? { WriterStepKeepsOk(s, p, a.slugTaken); } else { HandlerStepKeepsOk(s, p); }
      }
    }
  }

  /** Over any run the row is never lost and its version never decreases. */
  lemma {:induction false} RunKeepsInv<V>(s: State<V>, actions: seq<Action<V>>)
    requires Inv(s)
    ensures Inv(Runs(s, actions)) && NoOlder(s.row, Runs(s, actions).row)
    decreases |actions|
  {
    if actions != [] {
      StepKeepsInv(s, actions[0]);
      RunKeepsInv(Apply(s, actions[0]), actions[1..]);
    }
  }

  /** The process wrote this row itself and reported it. */
  predicate Wrote<V(==)>(proc: Process<V>, row: Row<V>) {
    proc.pc.Returned? && !proc.gap && row == Some(proc.snapshot)
  }

  /** The row always holds the initial snapshot or one that some process wrote before it returned. */
  ghost predicate FromAWriter<V>(row0: Row<V>, s: State<V>) {
    s.row == row0 || exists p :: p in s.procs && Wrote(s.procs[p], s.row)
  }

  lemma ReturnedIsFinal<V>(s: State<V>, a: Action<V>, p: nat)
    requires p in s.procs && s.procs[p].pc.Returned?
    ensures p in Apply(s, a).procs && Apply(s, a).procs[p] == s.procs[p]
  {
  }

  lemma NewRowHasAWriter<V>(s: State<V>, a: Action<V>)
    requires Inv(s)
    ensures var s' := Apply(s, a); s'.row == s.row || (a.p in s'.procs && Wrote(s'.procs[a.p], s'.row))
  {
    if a.p in s.procs { assert ProcessOk(s, s.procs[a.p]); }
  }

  lemma StepKeepsOrigin<V>(row0: Row<V>, s: State<V>, a: Action<V>)
    requires Inv(s) && FromAWriter(row0, s)
    ensures FromAWriter(row0, Apply(s, a))
  {
    NewRowHasAWriter(s, a);
    if s.row != row0 {
      var p :| p in s.procs && Wrote(s.procs[p], s.row);
      ReturnedIsFinal(s, a, p);
    }
  }

  lemma {:induction false} RunKeepsOrigin<V>(row0: Row<V>, s: State<V>, actions: seq<Action<V>>)
    requires Inv(s) && FromAWriter(row0, s)
    ensures FromAWriter(row0, Runs(s, actions))
    decreases |actions|
  {
    if actions != [] {
      StepKeepsInv(s, actions[0]);
      StepKeepsOrigin(row0, s, actions[0]);
      RunKeepsOrigin(row0, Apply(s, actions[0]), actions[1..]);
    }
  }

  /** Once the row exists, a process that is not in the gap never falls into it. */
  predicate ClearOfTheGap<V>(s: State<V>, p: nat) { s.row.Some? && (p in s.procs ==> !s.procs[p].gap) }

  lemma StepStaysClear<V>(s: State<V>, a: Action<V>, p: nat)
    requires ClearOfTheGap(s, p)
    ensures ClearOfTheGap(Apply(s, a), p)
  {
  }

  predicate NeverTaken<V>(actions: seq<Action<V>>) {
    forall k | 0 <= k < |actions| :: actions[k].Step? ==> !actions[k].slugTaken
  }

  ghost predicate NoClash<V>(s: State<V>) {
    forall p :: p in s.procs ==> !s.procs[p].clash
  }

  lemma {:induction false} RunWithoutClash<V>(s: State<V>, actions: seq<Action<V>>)
    requires NoClash(s) && NeverTaken(actions)
    ensures NoClash(Runs(s, actions))
    decreases |actions|
  {
    if actions != [] {
      RunWithoutClash(Apply(s, actions[0]), actions[1..]);
    }
  }

  /**
   The main result for snapshot writers whose only unique key is the row id, over every
   interleaving, failed and abandoned writers included: the final rethrow is unreachable, and the
   row is the initial one or the snapshot of a process that returned, at or above the initial
   version and the versions of all writers that returned.
   */
  lemma WritersConverge<V>(row0: Row<V>, actions: seq<Action<V>>)
    requires NeverTaken(actions)
    ensures var s := Runs(Initial(row0), actions);
            && NoOlder(row0, s.row)
            && (forall p :: p in s.procs && s.procs[p].kind.SnapshotWriter? ==>
                  && s.procs[p].pc != Threw(Rethrown)
                  && (s.procs[p].pc.Returned? ==> AtLeast(s.row, s.procs[p].snapshot.version)))
            && (s.row == row0 || exists p :: p in s.procs && s.procs[p].pc.Returned? && s.row == Some(s.procs[p].snapshot))
  {
    var s0 := Initial(row0);
    RunKeepsInv(s0, actions);
    RunKeepsOrigin(row0, s0, actions);
    RunWithoutClash(s0, actions);
    var s := Runs(s0, actions);
    forall p | p in s.procs && s.procs[p].kind.SnapshotWriter? ensures s.procs[p].pc != Threw(Rethrown) {
      assert ProcessOk(s, s.procs[p]);
    }
  }

  /** With a second unique key (the product slug) a writer rethrows only after that key clashed. */
  lemma RethrowNeedsClash<V>(row0: Row<V>, actions: seq<Action<V>>, p: nat)
    ensures var s := Runs(Initial(row0), actions);
            p in s.procs && s.procs[p].pc == Threw(Rethrown) ==> s.procs[p].kind.SnapshotWriter? && s.procs[p].clash
  {
    RunKeepsInv(Initial(row0), actions);
    var s := Runs(Initial(row0), actions);
    if p in s.procs { assert ProcessOk(s, s.procs[p]); }
  }

  /**
   A status handler that returns has met the row at its version or above, unless its update
   ran before the row existed (`gap`); then, and only then, its status can be lost.
   */
  lemma HandlersMeetTheRow<V>(row0: Row<V>, actions: seq<Action<V>>, p: nat)
    ensures var s := Runs(Initial(row0), actions);
            p in s.procs && s.procs[p].kind.StatusHandler? ==>
              && (s.procs[p].pc.Returned? && !s.procs[p].gap ==> AtLeast(s.row, s.procs[p].snapshot.version))
              && (s.procs[p].pc == Threw(MissingPrerequisite) ==> s.procs[p].gap)
  {
    RunKeepsInv(Initial(row0), actions);
    var s := Runs(Initial(row0), actions);
    if p in s.procs { assert ProcessOk(s, s.procs[p]); }
  }

  // ---------- undisturbed processes ----------

  /** A writer that runs on its own, with its other unique key free, returns, and the newer snapshot stays. */
  lemma UndisturbedWritersReturn<V>(s: State<V>, p: nat, snapshot: Snapshot<V>)
    requires p !in s.procs
    ensures var step := Step(p, false);
            var s' := Apply(Apply(Apply(Apply(Apply(s, Spawn(p, SnapshotWriter, snapshot)), step), step), step), step);
            && p in s'.procs && s'.procs[p].pc.Returned?
            && s'.row == if s.row.Some? && s.row.value.version >= snapshot.version then s.row else Some(snapshot)
  {
    var step := Step(p, false);
    var s1 := Apply(s, Spawn(p, SnapshotWriter, snapshot));
    var s2 := Apply(s1, step);
    var s3 := Apply(s2, step);
    if s.row.None? {
      assert s2.procs[p].pc == Creating && s3.procs[p].pc == Returned;
    } else if s.row.value.version >= snapshot.version {
      assert s2.procs[p].pc == Creating && s3.procs[p].pc == Retrying;
      assert Apply(s3, step).procs[p].pc == Rereading;
    } else {
      assert s2.procs[p].pc == Returned && s3 == s2;
    }
  }

  /** A status handler on its own succeeds exactly when the row is there, and then the newer status stays. */
  lemma UndisturbedHandlersAreExact<V>(s: State<V>, p: nat, snapshot: Snapshot<V>)
    requires p !in s.procs
    ensures var step := Step(p, false);
            var s' := Apply(Apply(Apply(s, Spawn(p, StatusHandler, snapshot)), step), step);
            && p in s'.procs && s'.procs[p].pc == (if s.row.Some? then Returned else Threw(MissingPrerequisite))
            && s'.row == if s.row.Some? && s.row.value.version < snapshot.version then Some(snapshot) else s.row
  {
    var s1 := Apply(s, Spawn(p, StatusHandler, snapshot));
    var s2 := Apply(s1, Step(p, false));
    if s.row.Some? && s.row.value.version < snapshot.version {
      assert s2.procs[p].pc == Returned;
    } else {
      assert s2.procs[p].pc == LookingUp;
    }
  }
}
