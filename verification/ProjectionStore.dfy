/**
 The projection writer and the status handler as programs over one projection row.  Before each
 of their statements other processes may run any updates and inserts of their own (`env`).
 */
module ProjectionStore {
  import opened Wrappers
  import opened ProjectionWriter
  import opened Numbers

  datatype WriteError = VersionRequired | VersionInvalid | UniqueViolation | ProjectionMissing

  /** One statement of another process on the same row. */
  datatype Statement<V> = OtherUpdate(snapshot: Snapshot<V>) | OtherCreate(snapshot: Snapshot<V>)

  function Exec<V>(row: Row<V>, s: Statement<V>): Row<V> {
    match s
    case OtherUpdate(snapshot) => Update(row, snapshot)
    case OtherCreate(snapshot) => Create(row, snapshot)
  }

  function ExecAll<V>(row: Row<V>, gap: seq<Statement<V>>): (row': Row<V>)
    ensures NoOlder(row, row')
    decreases |gap|
  {
    if gap == [] then row else ExecAll(Exec(row, gap[0]), gap[1..])
  }

  predicate ValidVersion(version: Option<int>) {
    version.Some? && 0 <= version.value <= MAX_SAFE_INTEGER
  }

  /** What the write amounts to when nothing else runs: the newer snapshot wins. */
  function Newer<V>(row: Row<V>, snapshot: Snapshot<V>): Row<V> {
    if AtLeast(row, snapshot.version) then row else Some(snapshot)
  }

  class ProjectionRow<V(==)> {
    var row: Row<V>
    var statements: nat
    const env: nat -> seq<Statement<V>>
    const slugTaken: nat -> bool

    constructor(row: Row<V>, env: nat -> seq<Statement<V>>, slugTaken: nat -> bool)
      ensures this.row == row && this.env == env && this.slugTaken == slugTaken && statements == 0
    {
      this.row, this.env, this.slugTaken, statements := row, env, slugTaken, 0;
    }

    ghost predicate Alone() reads this { forall k: nat :: env(k) == [] }

    ghost predicate SlugFree() reads this { forall k: nat :: !slugTaken(k) }

    method Others() returns (taken: bool)
      modifies this
      ensures row == ExecAll(old(row), env(old(statements))) && taken == slugTaken(old(statements))
      ensures statements == old(statements) + 1
    {
      taken := slugTaken(statements);
      row := ExecAll(row, env(statements));
      statements := statements + 1;
    }

    /** The count of matched rows, or a unique violation on the slug. */
    method UpdateMany(snapshot: Snapshot<V>, writesSlug: bool) returns (r: Result<nat, WriteError>)
      modifies this
      ensures var before := ExecAll(old(row), env(old(statements)));
              && (r.Failure? <==> Matches(before, snapshot) && writesSlug && slugTaken(old(statements)))
              && (r.Failure? ==> r.error == UniqueViolation)
              && (r.Success? ==> r.value == if Matches(before, snapshot) then 1 else 0)
              && row == if r.Success? then Update(before, snapshot) else before
      ensures statements == old(statements) + 1
    {
      var taken := Others();
      if !Matches(row, snapshot) { return Success(0); }
      if writesSlug && taken { return Failure(UniqueViolation); }
      row := Some(snapshot);
      return Success(1);
    }

    method CreateRow(snapshot: Snapshot<V>) returns (created: bool)
      modifies this
      ensures var before := ExecAll(old(row), env(old(statements)));
              && created == (before.None? && !slugTaken(old(statements)))
              && row == if created then Some(snapshot) else before
    {
      var taken := Others();
      created := row.None? && !taken;
      if created { row := Some(snapshot); }
    }

    method FindUnique() returns (found: Row<V>)
      modifies this
      ensures found == row == ExecAll(old(row), env(old(statements)))
    {
      var _ := Others();
      found := row;
    }

    /** `writeOrderHistoryProjection` and `writeProductCatalogProjection`. */
    method WriteProjection(version: Option<int>, value: V) returns (r: Result<(), WriteError>)
      modifies this
      ensures NoOlder(old(row), row)
      ensures version.None? <==> r == Failure(VersionRequired)
      ensures version.Some? && !ValidVersion(version) <==> r == Failure(VersionInvalid)
      ensures !ValidVersion(version) ==> row == old(row)
      ensures ValidVersion(version) && r.Success? ==> AtLeast(row, version.value)
      ensures ValidVersion(version) && SlugFree() ==> r.Success?
      ensures ValidVersion(version) && SlugFree() && Alone() ==> row == Newer(old(row), Snapshot(version.value, value))
    {
      if version.None? { return Failure(VersionRequired); }
      if version.value < 0 || version.value > MAX_SAFE_INTEGER { return Failure(VersionInvalid); }
      var snapshot := Snapshot(version.value, value);
      var updated := UpdateMany(snapshot, true);
      if updated.Failure? { return Failure(updated.error); }
      if updated.value > 0 { return Success(()); }
      var created := CreateRow(snapshot);
      if created { return Success(()); }
      var retried := UpdateMany(snapshot, true);
      if retried.Failure? { return Failure(retried.error); }
      if retried.value > 0 { return Success(()); }
      var existing := FindUnique();
      if AtLeast(existing, snapshot.version) { return Success(()); }
      return Failure(UniqueViolation);
    }

    /**
     `updateOrderStatus`.  It succeeds whenever the second statement finds a row, also when the
     first one ran before the row existed and so changed nothing.
     */
    method UpdateOrderStatus(version: Option<nat>, status: V) returns (r: Result<(), WriteError>)
      modifies this
      ensures NoOlder(old(row), row)
      ensures version.None? <==> r == Failure(VersionRequired)
      ensures version.None? ==> row == old(row)
      ensures r == Failure(ProjectionMissing) ==> row.None?
      ensures r.Success? ==> row.Some?
      ensures var atUpdate := ExecAll(old(row), env(old(statements)));
              version.Some? ==>
                (atUpdate.Some? ==> r.Success? && AtLeast(row, version.value))
                && (atUpdate.None? ==> row == ExecAll(atUpdate, env(old(statements) + 1)) && (r.Success? <==> row.Some?))
      ensures version.Some? && Alone() && r.Success? ==> row == Newer(old(row), Snapshot(version.value, status))
    {
      if version.None? { return Failure(VersionRequired); }
      var updated := UpdateMany(Snapshot(version.value, status), false);
      if updated == Success(1) { return Success(()); }
      var existing := FindUnique();
      if existing.None? { return Failure(ProjectionMissing); }
      return Success(());
    }
  }
}
