/** The per-entity version history of the in-memory store
    (plugins/memory/entity_store.go): an append-only sequence of rows, read
    "as at" an instant, extended by saves and tombstones. */
module Versions {
  import opened Json

  /** Entity, transaction, savepoint and tenant identifiers matter only up to
      equality; NO_ID stands for the empty string. */
  type Uuid = int

  const NO_ID: Uuid := 0

  /** Entity payload plus the metadata the transaction protocol depends on. */
  datatype Entity = Entity(model: string, data: Value, txId: Uuid)

  /** One version. A tombstone carries no entity but still has a version number. */
  datatype Row = Row(entity: Option<Entity>, version: nat, txId: Uuid, stamp: int)

  /** Entity data is held per tenant, then per entity id. */
  datatype Key = Key(tenant: Uuid, id: Uuid)

  type Rows = map<Key, seq<Row>>

  function RowsOf(rows: Rows, k: Key): seq<Row> {
    if k in rows then rows[k] else []
  }

  predicate Ordered(vs: seq<Row>) {
    forall i, j :: 0 <= i < j < |vs| ==> vs[i].stamp <= vs[j].stamp
  }

  predicate AllAtMost(vs: seq<Row>, time: int) {
    forall i :: 0 <= i < |vs| ==> vs[i].stamp <= time
  }

  /** What a reader at `time` sees: the newest row stamped at or before it. */
  function SnapshotAt(vs: seq<Row>, time: int): Option<Entity> {
    if vs == [] then None
    else if vs[|vs| - 1].stamp <= time then vs[|vs| - 1].entity
    else SnapshotAt(vs[..|vs| - 1], time)
  }

  /** What a reader outside any transaction sees: the newest row. */
  function Latest(vs: seq<Row>): Option<Entity> {
    if vs == [] then None else vs[|vs| - 1].entity
  }

  /** Version number of the newest live row, 0 when there is none. */
  function LastLiveVersion(vs: seq<Row>): nat {
    if vs == [] then 0
    else if vs[|vs| - 1].entity.Some? then vs[|vs| - 1].version
    else LastLiveVersion(vs[..|vs| - 1])
  }

  function SavedRow(vs: seq<Row>, e: Entity, txId: Uuid, stamp: int): Row {
    Row(Some(e.(txId := txId)), LastLiveVersion(vs) + 1, txId, stamp)
  }

  /** One row per saved value, oldest first, all sharing the transaction and stamp. */
  function AppendSaves(vs: seq<Row>, es: seq<Entity>, txId: Uuid, stamp: int): seq<Row>
    decreases |es|
  {
    if es == [] then vs
    else AppendSaves(vs + [SavedRow(vs, es[0], txId, stamp)], es[1..], txId, stamp)
  }

  function Tombstone(vs: seq<Row>, txId: Uuid, stamp: int): Row {
    Row(None, LastLiveVersion(vs) + 1, txId, stamp)
  }

  lemma {:induction false} AppendSavesExtends(vs: seq<Row>, es: seq<Entity>, txId: Uuid, stamp: int)
    ensures |AppendSaves(vs, es, txId, stamp)| == |vs| + |es|
    ensures vs <= AppendSaves(vs, es, txId, stamp)
    ensures forall i :: |vs| <= i < |vs| + |es| ==>
      AppendSaves(vs, es, txId, stamp)[i].entity == Some(es[i - |vs|].(txId := txId)) &&
      AppendSaves(vs, es, txId, stamp)[i].stamp == stamp &&
      AppendSaves(vs, es, txId, stamp)[i].txId == txId
    decreases |es|
  {
    if es != [] {
      AppendSavesExtends(vs + [SavedRow(vs, es[0], txId, stamp)], es[1..], txId, stamp);
    }
  }

  /** Rows stamped after an instant never change what a reader at it sees. */
  lemma {:induction false} LaterRowsInvisible(vs: seq<Row>, vs': seq<Row>, time: int)
    requires vs <= vs'
    requires forall i :: |vs| <= i < |vs'| ==> vs'[i].stamp > time
    ensures SnapshotAt(vs', time) == SnapshotAt(vs, time)
    decreases |vs'|
  {
    if |vs'| == |vs| {
      assert vs' == vs;
    } else {
      assert vs'[..|vs'| - 1][..|vs|] == vs;
      LaterRowsInvisible(vs, vs'[..|vs'| - 1], time);
    }
  }

  /** A history with nothing after an instant reads the same at it and now. */
  lemma NothingLaterIsLatest(vs: seq<Row>, time: int)
    requires AllAtMost(vs, time)
    ensures SnapshotAt(vs, time) == Latest(vs)
  {
  }

  /** The front-to-back scan with an early break that both the snapshot read and
      the point-in-time read use; on an ordered history it is the newest row at
      or before the instant. */
  method ReadAt(vs: seq<Row>, time: int) returns (result: Option<Entity>)
    requires Ordered(vs)
    ensures result == SnapshotAt(vs, time)
  {
    result := None;
    var i := 0;
    while i < |vs|
      invariant 0 <= i <= |vs|
      invariant AllAtMost(vs[..i], time)
      invariant result == Latest(vs[..i])
    {
      if vs[i].stamp > time {
        LaterRowsInvisible(vs[..i], vs, time);
        NothingLaterIsLatest(vs[..i], time);
        return;
      }
      assert vs[..i + 1] == vs[..i] + [vs[i]];
      result := vs[i].entity;
      i := i + 1;
    }
    assert vs[..i] == vs;
  }

  /** The backwards scan for the newest live row's version. */
  method BaseVersion(vs: seq<Row>) returns (base: nat)
    ensures base == LastLiveVersion(vs)
  {
    base := 0;
    var i := |vs| - 1;
    assert vs[..|vs|] == vs;
    while i >= 0
      invariant -1 <= i < |vs|
      invariant base == 0
      invariant LastLiveVersion(vs[..i + 1]) == LastLiveVersion(vs)
    {
      assert vs[..i + 1][..i] == vs[..i];
      if vs[i].entity.Some? {
        base := vs[i].version;
        return;
      }
      i := i - 1;
    }
  }

  /** Live rows are numbered 1, 2, 3, ... without gaps; a tombstone takes the
      number the next live row will take again. */
  predicate Numbered(vs: seq<Row>) {
    forall i :: 0 <= i < |vs| ==> vs[i].version == LastLiveVersion(vs[..i]) + 1
  }

  lemma NumberedAppend(vs: seq<Row>, r: Row)
    requires Numbered(vs) && r.version == LastLiveVersion(vs) + 1
    ensures Numbered(vs + [r])
  {
    var w := vs + [r];
    forall i | 0 <= i < |w| ensures w[i].version == LastLiveVersion(w[..i]) + 1 {
      if i < |vs| {
        assert w[..i] == vs[..i];
      } else {
        assert w[..i] == vs;
      }
    }
  }

  lemma {:induction false} NumberedSaves(vs: seq<Row>, es: seq<Entity>, txId: Uuid, stamp: int)
    requires Numbered(vs)
    ensures Numbered(AppendSaves(vs, es, txId, stamp))
    decreases |es|
  {
    if es != [] {
      NumberedAppend(vs, SavedRow(vs, es[0], txId, stamp));
      NumberedSaves(vs + [SavedRow(vs, es[0], txId, stamp)], es[1..], txId, stamp);
    }
  }

  lemma {:induction false} LiveVersionMonotone(vs: seq<Row>, i: nat, j: nat)
    requires Numbered(vs) && i <= j <= |vs|
    ensures LastLiveVersion(vs[..i]) <= LastLiveVersion(vs[..j])
    decreases j
  {
    if i < j {
      assert vs[..j][..j - 1] == vs[..j - 1];
      LiveVersionMonotone(vs, i, j - 1);
    }
  }

  /** Version numbers never go down, and two rows of one entity share a number
      exactly when every row from the first of them up to the second is a
      tombstone: an entity saved again after a delete reuses the tombstone's number. */
  lemma {:induction false} VersionsRepeatOnlyAcrossTombstones(vs: seq<Row>, i: nat, j: nat)
    requires Numbered(vs) && i < j < |vs|
    ensures vs[i].version <= vs[j].version
    ensures vs[i].version == vs[j].version <==> forall k :: i <= k < j ==> vs[k].entity.None?
  {
    LiveVersionMonotone(vs, i, j);
    if k :| i <= k < j && vs[k].entity.Some? {
      assert vs[..k + 1][..k] == vs[..k];
      LiveVersionMonotone(vs, i, k);
      LiveVersionMonotone(vs, k + 1, j);
    } else {
      OnlyTombstones(vs, i, j);
    }
  }

  lemma {:induction false} OnlyTombstones(vs: seq<Row>, i: nat, j: nat)
    requires i <= j <= |vs|
    requires forall k :: i <= k < j ==> vs[k].entity.None?
    ensures LastLiveVersion(vs[..i]) == LastLiveVersion(vs[..j])
    decreases j
  {
    if i < j {
      assert vs[..j][..j - 1] == vs[..j - 1];
      OnlyTombstones(vs, i, j - 1);
    }
  }
}
