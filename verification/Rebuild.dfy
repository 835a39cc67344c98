/**
 The projection rebuild: page through the source table by cursor and write every row's snapshot.
 The table stands still during the run and is listed in id order, as the query asks.
 */
module Rebuild {
  import opened Wrappers
  import opened ProjectionWriter
  import opened ProjectionStore

  datatype SourceRow<V> = SourceRow(id: nat, snapshot: Snapshot<V>)

  predicate Ascending<V>(rows: seq<SourceRow<V>>) {
    forall i, j | 0 <= i < j < |rows| :: rows[i].id < rows[j].id
  }

  function Lookup<V>(m: map<nat, Snapshot<V>>, id: nat): Row<V> {
    if id in m then Some(m[id]) else None
  }

  /** One undisturbed projection write: the newer snapshot stays. */
  function Write<V>(m: map<nat, Snapshot<V>>, row: SourceRow<V>): map<nat, Snapshot<V>> {
    m[row.id := Newer(Lookup(m, row.id), row.snapshot).value]
  }

  function WriteAll<V>(m: map<nat, Snapshot<V>>, rows: seq<SourceRow<V>>): map<nat, Snapshot<V>> {
    if rows == [] then m else Write(WriteAll(m, rows[..|rows| - 1]), rows[|rows| - 1])
  }

  predicate Lists<V>(rows: seq<SourceRow<V>>, id: nat) { exists k :: 0 <= k < |rows| && rows[k].id == id }

  lemma {:induction false} UnlistedStays<V>(m: map<nat, Snapshot<V>>, rows: seq<SourceRow<V>>, id: nat)
    requires !Lists(rows, id)
    ensures Lookup(WriteAll(m, rows), id) == Lookup(m, id)
  {
    if rows != [] {
      var n := |rows| - 1;
      assert forall k :: 0 <= k < n ==> rows[..n][k] == rows[k];
      UnlistedStays(m, rows[..n], id);
    }
  }

  lemma {:induction false} ListedTakesTheNewer<V>(m: map<nat, Snapshot<V>>, rows: seq<SourceRow<V>>, k: nat)
    requires Ascending(rows) && k < |rows|
    ensures Lookup(WriteAll(m, rows), rows[k].id) == Newer(Lookup(m, rows[k].id), rows[k].snapshot)
    decreases |rows|
  {
    var n := |rows| - 1;
    assert forall j :: 0 <= j < n ==> rows[..n][j] == rows[j];
    if k < n {
      ListedTakesTheNewer(m, rows[..n], k);
    } else {
      UnlistedStays(m, rows[..n], rows[n].id);
    }
  }

  /** Each source row leaves its projection at max(old version, source version); nothing else changes. */
  lemma RebuildTakesTheNewer<V>(m: map<nat, Snapshot<V>>, rows: seq<SourceRow<V>>)
    requires Ascending(rows)
    ensures forall k :: 0 <= k < |rows| ==> Lookup(WriteAll(m, rows), rows[k].id) == Newer(Lookup(m, rows[k].id), rows[k].snapshot)
    ensures forall id :: !Lists(rows, id) ==> Lookup(WriteAll(m, rows), id) == Lookup(m, id)
  {
    forall k | 0 <= k < |rows|
      ensures Lookup(WriteAll(m, rows), rows[k].id) == Newer(Lookup(m, rows[k].id), rows[k].snapshot)
    {
      ListedTakesTheNewer(m, rows, k);
    }
    forall id | !Lists(rows, id) ensures Lookup(WriteAll(m, rows), id) == Lookup(m, id) { UnlistedStays(m, rows, id); }
  }

  /** A newer projection is never overwritten, and no projection disappears. */
  lemma RebuildNeverGoesBack<V>(m: map<nat, Snapshot<V>>, rows: seq<SourceRow<V>>, id: nat)
    requires Ascending(rows)
    ensures NoOlder(Lookup(m, id), Lookup(WriteAll(m, rows), id))
    ensures (forall k :: 0 <= k < |rows| && rows[k].id == id ==> AtLeast(Lookup(m, id), rows[k].snapshot.version)) ==>
              Lookup(WriteAll(m, rows), id) == Lookup(m, id)
  {
    RebuildTakesTheNewer(m, rows);
    if k :| 0 <= k < |rows| && rows[k].id == id { assert Lookup(WriteAll(m, rows), rows[k].id) == Newer(Lookup(m, id), rows[k].snapshot); }
  }

  /** A second run over the same source changes nothing. */
  lemma RebuildIsIdempotent<V>(m: map<nat, Snapshot<V>>, rows: seq<SourceRow<V>>)
    requires Ascending(rows)
    ensures WriteAll(WriteAll(m, rows), rows) == WriteAll(m, rows)
  {
    var once := WriteAll(m, rows);
    var twice := WriteAll(once, rows);
    RebuildTakesTheNewer(m, rows);
    forall id ensures Lookup(twice, id) == Lookup(once, id) {
      RebuildNeverGoesBack(once, rows, id);
    }
    forall id ensures id in twice <==> id in once {
      assert Lookup(twice, id) == Lookup(once, id);
    }
    forall id | id in once ensures twice[id] == once[id] {
      assert Lookup(twice, id) == Lookup(once, id);
    }
  }

  /** The rows after the cursor row start right behind the rows already visited. */
  lemma CursorFixesThePage<V>(table: seq<SourceRow<V>>, processed: nat, start: nat)
    requires Ascending(table) && 0 < processed <= |table| && start <= |table|
    requires forall k :: 0 <= k < start ==> table[k].id <= table[processed - 1].id
    requires start < |table| ==> table[processed - 1].id < table[start].id
    ensures start == processed
  {
    assert processed < |table| ==> table[processed - 1].id < table[processed].id;
  }

  class RebuildJob<V(==)> {
    var projections: map<nat, Snapshot<V>>

    constructor(projections: map<nat, Snapshot<V>>)
      ensures this.projections == projections
    {
      this.projections := projections;
    }

    /** `take` rows in id order, starting after the cursor row. */
    method FindMany(table: seq<SourceRow<V>>, cursor: Option<nat>, take: nat) returns (page: seq<SourceRow<V>>, ghost start: nat)
      requires Ascending(table)
      ensures start + |page| <= |table| && page == table[start..start + |page|]
      ensures |page| == take || start + |page| == |table|
      ensures |page| <= take
      ensures cursor.None? ==> start == 0
      ensures cursor.Some? ==> (forall k :: 0 <= k < start ==> table[k].id <= cursor.value)
                               && (start < |table| ==> cursor.value < table[start].id)
    {
      var from := 0;
      while cursor.Some? && from < |table| && table[from].id <= cursor.value
        invariant 0 <= from <= |table|
        invariant cursor.None? ==> from == 0
        invariant cursor.Some? ==> forall k :: 0 <= k < from ==> table[k].id <= cursor.value
      {
        from := from + 1;
      }
      var to := if from + take <= |table| then from + take else |table|;
      page, start := table[from..to], from;
    }

    method WritePage(page: seq<SourceRow<V>>)
      modifies this
      ensures projections == WriteAll(old(projections), page)
    {
      var k := 0;
      while k < |page|
        invariant 0 <= k <= |page|
        invariant projections == WriteAll(old(projections), page[..k])
      {
        projections := Write(projections, page[k]);
        assert page[..k + 1][..k] == page[..k];
        k := k + 1;
      }
      assert page[..k] == page;
    }

    /**
     For any batch size from 1 up the loop ends after visiting every row exactly once, in order,
     and returns the row count.  A batch size of 0 fetches an empty page and does nothing.
     */
    method RebuildOrderHistory(table: seq<SourceRow<V>>, batchSize: nat) returns (processed: nat, ghost visited: seq<SourceRow<V>>)
      requires Ascending(table)
      modifies this
      ensures visited == if batchSize == 0 then [] else table
      ensures processed == |visited| && projections == WriteAll(old(projections), visited)
    {
      var cursor: Option<nat> := None;
      processed, visited := 0, [];
      var hasMore := true;
      while hasMore
        invariant processed <= |table| && visited == table[..processed]
        invariant cursor == if processed == 0 then None else Some(table[processed - 1].id)
        invariant projections == WriteAll(old(projections), visited)
        invariant !hasMore ==> processed == if batchSize == 0 then 0 else |table|
        invariant batchSize == 0 ==> processed == 0
        decreases |table| - processed, hasMore
      {
        var page, start := FindMany(table, cursor, batchSize);
        if processed > 0 { CursorFixesThePage(table, processed, start); }
        if |page| == 0 {
          hasMore := false;
          continue;
        }
        WritePage(page);
        PageExtends(table, processed, page);
        WriteAllAppend(old(projections), visited, page);
        visited := visited + page;
        processed := processed + |page|;
        cursor := Some(page[|page| - 1].id);
      }
      assert table[..|table|] == table;
    }
  }

  lemma PageExtends<V>(table: seq<SourceRow<V>>, processed: nat, page: seq<SourceRow<V>>)
    requires processed + |page| <= |table| && page == table[processed..processed + |page|] && page != []
    ensures table[..processed] + page == table[..processed + |page|]
    ensures page[|page| - 1] == table[processed + |page| - 1]
  {
  }

  lemma {:induction false} WriteAllAppend<V>(m: map<nat, Snapshot<V>>, a: seq<SourceRow<V>>, b: seq<SourceRow<V>>)
    ensures WriteAll(m, a + b) == WriteAll(WriteAll(m, a), b)
    decreases |b|
  {
    if b == [] {
      assert a + b == a;
    } else {
      var n := |b| - 1;
      WriteAllAppend(m, a, b[..n]);
      assert (a + b)[..|a + b| - 1] == a + b[..n];
    }
  }
}
