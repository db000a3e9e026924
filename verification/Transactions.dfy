/** One open transaction of the in-memory store: its buffered writes, staged
    deletes, read and write sets, and savepoints
    (plugins/memory/txmanager.go, plugins/memory/entity_store.go). */
module Transactions {
  import opened Json
  import opened Versions

  /** A savepoint copies the buffer maps and remembers only the lengths of the
      append-only superseded lists. */
  datatype Savepoint = Savepoint(
    buffer: map<Uuid, Entity>,
    readSet: set<Uuid>,
    writeSet: set<Uuid>,
    deletes: set<Uuid>,
    lens: map<Uuid, nat>)

  datatype Tx = Tx(
    id: Uuid,
    tenant: Uuid,
    snapshot: int,
    readSet: set<Uuid>,
    writeSet: set<Uuid>,
    buffer: map<Uuid, Entity>,
    deletes: set<Uuid>,
    superseded: map<Uuid, seq<Entity>>,
    savepoints: map<Uuid, Savepoint>,
    rolledBack: bool,
    closed: bool)

  function NewTx(id: Uuid, tenant: Uuid, snapshot: int): Tx {
    Tx(id, tenant, snapshot, {}, {}, map[], {}, map[], map[], false, false)
  }

  function Superseded(tx: Tx, id: Uuid): seq<Entity> {
    if id in tx.superseded then tx.superseded[id] else []
  }

  /** Before a buffered value is overwritten it is kept, so that it still
      becomes a version of its own at commit. */
  function StageSuperseded(tx: Tx, id: Uuid): map<Uuid, seq<Entity>> {
    if id in tx.buffer then tx.superseded[id := Superseded(tx, id) + [tx.buffer[id]]] else tx.superseded
  }

  /** Save inside the transaction: buffer it, and undo any staged delete of it. */
  function SaveIn(tx: Tx, id: Uuid, e: Entity): Tx {
    tx.(superseded := StageSuperseded(tx, id),
        buffer := tx.buffer[id := e.(txId := tx.id)],
        writeSet := tx.writeSet + {id},
        deletes := tx.deletes - {id})
  }

  function CurrentTxId(e: Option<Entity>): Uuid {
    if e.Some? then e.value.txId else NO_ID
  }

  /** The token a compare-and-save inside the transaction compares with: none
      after a staged delete, the buffered value's, else the newest committed
      row's (the newest, not the snapshot's). */
  function CasToken(tx: Tx, vs: seq<Row>, id: Uuid): Uuid {
    if id in tx.deletes then NO_ID
    else if id in tx.buffer then tx.buffer[id].txId
    else CurrentTxId(Latest(vs))
  }

  predicate CasAccepts(tx: Tx, vs: seq<Row>, id: Uuid, expected: Uuid) {
    expected != NO_ID && CasToken(tx, vs, id) == expected
  }

  /** Delete checks the buffer, then the newest committed row. */
  predicate DeleteAccepts(tx: Tx, vs: seq<Row>, id: Uuid) {
    id in tx.buffer || Latest(vs).Some?
  }

  function DeleteIn(tx: Tx, id: Uuid): Tx {
    tx.(deletes := tx.deletes + {id}, buffer := tx.buffer - {id}, writeSet := tx.writeSet + {id})
  }

  /** What a read under the transaction returns: its own writes over its snapshot. */
  function TxView(tx: Tx, vs: seq<Row>, id: Uuid): Option<Entity> {
    if id in tx.deletes then None
    else if id in tx.buffer then Some(tx.buffer[id])
    else SnapshotAt(vs, tx.snapshot)
  }

  function AfterGet(tx: Tx, id: Uuid): Tx {
    if id in tx.deletes then tx else tx.(readSet := tx.readSet + {id})
  }

  function SavepointOf(tx: Tx): Savepoint {
    Savepoint(tx.buffer, tx.readSet, tx.writeSet, tx.deletes,
              map id | id in tx.superseded :: |tx.superseded[id]|)
  }

  function MakeSavepoint(tx: Tx, sp: Uuid): Tx {
    tx.(savepoints := tx.savepoints[sp := SavepointOf(tx)])
  }

  function Truncate(es: seq<Entity>, n: nat): seq<Entity> {
    if n <= |es| then es[..n] else es
  }

  /** Rolling back where no superseded list is shorter than recorded, as in linear
      nesting: RollbackIn, which says what happens to the others, agrees there. */
  function RollbackTo(tx: Tx, sp: Uuid): Tx
    requires sp in tx.savepoints
  {
    var p := tx.savepoints[sp];
    tx.(buffer := p.buffer, readSet := p.readSet, writeSet := p.writeSet, deletes := p.deletes,
        superseded := map id | id in tx.superseded && id in p.lens :: Truncate(tx.superseded[id], p.lens[id]),
        savepoints := tx.savepoints - {sp})
  }

  // --- the arrays behind the superseded lists ----------------------------

  /** What lies behind a superseded list in its array, up to the capacity: values a
      longer list left there, then slots never written. */
  type Slots = seq<Option<Entity>>
  type Spare = map<Uuid, Slots>

  function Behind(spare: Spare, id: Uuid): Slots {
    if id in spare then spare[id] else []
  }

  function Wrap(es: seq<Entity>): Slots {
    seq(|es|, i requires 0 <= i < |es| => Some(es[i]))
  }

  predicate Solid(slots: Slots) {
    forall i :: 0 <= i < |slots| ==> slots[i].Some?
  }

  function Unwrap(slots: Slots): seq<Entity>
    requires Solid(slots)
  {
    seq(|slots|, i requires 0 <= i < |slots| => slots[i].value)
  }

  function Array(tx: Tx, spare: Spare, id: Uuid): Slots {
    Wrap(Superseded(tx, id)) + Behind(spare, id)
  }

  /** Appending takes the next slot of the array, or a new array. */
  function StageSpare(tx: Tx, spare: Spare, id: Uuid): Spare {
    if id !in tx.buffer then spare
    else spare[id := if Behind(spare, id) == [] then [] else Behind(spare, id)[1..]]
  }

  /** Re-slicing to the recorded length panics beyond the capacity. */
  predicate PastCapacity(tx: Tx, spare: Spare, p: Savepoint, id: Uuid) {
    id in tx.superseded && id in p.lens && p.lens[id] > |Array(tx, spare, id)|
  }

  /** It stays within what was ever written. */
  predicate Reslices(tx: Tx, spare: Spare, p: Savepoint, id: Uuid) {
    id in tx.superseded && id in p.lens ==>
      p.lens[id] <= |Array(tx, spare, id)| && Solid(Array(tx, spare, id)[..p.lens[id]])
  }

  function Resliced(tx: Tx, spare: Spare, p: Savepoint, id: Uuid): seq<Entity>
    requires id in tx.superseded && id in p.lens && Reslices(tx, spare, p, id)
  {
    Unwrap(Array(tx, spare, id)[..p.lens[id]])
  }

  function Leftover(tx: Tx, spare: Spare, p: Savepoint, id: Uuid): Slots
    requires id in tx.superseded && id in p.lens && Reslices(tx, spare, p, id)
  {
    Array(tx, spare, id)[p.lens[id]..]
  }

  /** The lists once the loop of the rollback has been over `ids`: re-sliced to the
      recorded length, or dropped where none was recorded. */
  function ListsAfter(tx: Tx, spare: Spare, p: Savepoint, ids: set<Uuid>): map<Uuid, seq<Entity>>
    requires forall id :: id in ids ==> Reslices(tx, spare, p, id)
  {
    map id | id in tx.superseded && (id in ids ==> id in p.lens) ::
      if id in ids then Resliced(tx, spare, p, id) else tx.superseded[id]
  }

  function SpareAfter(tx: Tx, spare: Spare, p: Savepoint, ids: set<Uuid>): Spare
    requires forall id :: id in ids ==> Reslices(tx, spare, p, id)
  {
    map id | id in tx.superseded && (id in ids ==> id in p.lens) ::
      if id in ids then Leftover(tx, spare, p, id) else Behind(spare, id)
  }

  /** The rollback up to the point where its loop has been over `ids`. */
  function RestoredSoFar(tx: Tx, spare: Spare, sp: Uuid, ids: set<Uuid>): Tx
    requires sp in tx.savepoints && forall id :: id in ids ==> Reslices(tx, spare, tx.savepoints[sp], id)
  {
    var p := tx.savepoints[sp];
    tx.(buffer := p.buffer, readSet := p.readSet, writeSet := p.writeSet, deletes := p.deletes,
        superseded := ListsAfter(tx, spare, p, ids))
  }

  /** The rollback panics when its loop has been over `seen`. */
  predicate PanicsAfter(tx: Tx, spare: Spare, sp: Uuid, seen: set<Uuid>)
    requires sp in tx.savepoints
  {
    && (forall id :: id in seen ==> Reslices(tx, spare, tx.savepoints[sp], id))
    && (exists id :: id in tx.superseded.Keys - seen && PastCapacity(tx, spare, tx.savepoints[sp], id))
  }

  /** Some list is re-sliced over slots never written. */
  predicate LeavesHoles(tx: Tx, spare: Spare, p: Savepoint) {
    exists id :: id in tx.superseded && !Reslices(tx, spare, p, id) && !PastCapacity(tx, spare, p, id)
  }

  function Reserved(spare: Spare, id: Uuid, room: nat): Spare {
    spare[id := seq(room, i => None)]
  }

  /** How a rollback to a savepoint ends: a panic beyond some capacity, lists with empty
      slots in them, or the transaction restored. */
  datatype Ending = Panicked | Hollow | Ended(tx: Tx)

  function RollbackIn(tx: Tx, spare: Spare, sp: Uuid): Ending
    requires sp in tx.savepoints
  {
    if exists id :: id in tx.superseded && PastCapacity(tx, spare, tx.savepoints[sp], id) then Panicked
    else if exists id :: id in tx.superseded && !Reslices(tx, spare, tx.savepoints[sp], id) then Hollow
    else Ended(RestoredSoFar(tx, spare, sp, tx.superseded.Keys).(savepoints := tx.savepoints - {sp}))
  }

  function ReleaseSavepoint(tx: Tx, sp: Uuid): Tx {
    tx.(savepoints := tx.savepoints - {sp})
  }

  /** Closing drops the side tables the manager keeps per transaction. */
  function Closed(tx: Tx): Tx {
    tx.(closed := true, savepoints := map[], superseded := map[])
  }

  /** What the commit flush writes for one id: superseded values then the buffered one,
      or a tombstone. */
  function FlushedRows(tx: Tx, vs: seq<Row>, id: Uuid, stamp: int): seq<Row> {
    if id in tx.buffer then AppendSaves(vs, Superseded(tx, id) + [tx.buffer[id]], tx.id, stamp)
    else if id in tx.deletes then vs + [Tombstone(vs, tx.id, stamp)]
    else vs
  }

  function Flush(rows: Rows, tx: Tx, stamp: int): (rows': Rows)
    ensures forall k {:trigger RowsOf(rows', k)} ::
              RowsOf(rows', k) ==
              if k.tenant == tx.tenant then FlushedRows(tx, RowsOf(rows, k), k.id, stamp) else RowsOf(rows, k)
  {
    var touched := set id | id in tx.buffer.Keys + tx.deletes :: Key(tx.tenant, id);
    map k | k in rows.Keys + touched ::
      if k.tenant == tx.tenant then FlushedRows(tx, RowsOf(rows, k), k.id, stamp) else RowsOf(rows, k)
  }

  predicate WorkOk(id: Uuid, buffer: map<Uuid, Entity>, writeSet: set<Uuid>, deletes: set<Uuid>) {
    && writeSet == buffer.Keys + deletes
    && buffer.Keys !! deletes
    && forall x :: x in buffer ==> buffer[x].txId == id
  }

  /** The write set is the buffered ids plus the deleted ids, which are disjoint,
      and every buffered value carries this transaction's id; savepoints likewise. */
  predicate TxOk(tx: Tx) {
    && WorkOk(tx.id, tx.buffer, tx.writeSet, tx.deletes)
    && forall sp :: sp in tx.savepoints ==>
         WorkOk(tx.id, tx.savepoints[sp].buffer, tx.savepoints[sp].writeSet, tx.savepoints[sp].deletes)
  }

  lemma WriteKeepsTxOk(tx: Tx, id: Uuid, e: Entity)
    requires TxOk(tx)
    ensures TxOk(SaveIn(tx, id, e)) && TxOk(DeleteIn(tx, id))
  {
  }

  lemma MarkKeepsTxOk(tx: Tx, sp: Uuid)
    requires TxOk(tx)
    ensures TxOk(MakeSavepoint(tx, sp)) && TxOk(ReleaseSavepoint(tx, sp))
  {
  }

  lemma RollbackKeepsTxOk(tx: Tx, spare: Spare, sp: Uuid, ids: set<Uuid>)
    requires TxOk(tx) && sp in tx.savepoints
    requires forall id :: id in ids ==> Reslices(tx, spare, tx.savepoints[sp], id)
    ensures TxOk(RestoredSoFar(tx, spare, sp, ids))
    ensures TxOk(RestoredSoFar(tx, spare, sp, ids).(savepoints := tx.savepoints - {sp}))
  {
  }

  /** Same pending work: everything a commit or a later read depends on. */
  predicate SameWork(a: Tx, b: Tx) {
    a.(savepoints := map[]) == b.(savepoints := map[])
  }

  /** `tx` was reached from `base` by work that used only savepoints taken since. */
  predicate GrownFrom(base: Tx, sp: Uuid, tx: Tx) {
    && sp in tx.savepoints
    && tx.savepoints[sp] == SavepointOf(base)
    && tx.id == base.id && tx.tenant == base.tenant && tx.snapshot == base.snapshot
    && tx.rolledBack == base.rolledBack && tx.closed == base.closed
    && (forall id :: id in base.superseded ==> id in tx.superseded && base.superseded[id] <= tx.superseded[id])
    && (forall p :: p in tx.savepoints && p !in base.savepoints && p != sp ==>
          Covers(tx.savepoints[p].lens, base.superseded))
  }

  predicate Covers(lens: map<Uuid, nat>, superseded: map<Uuid, seq<Entity>>) {
    forall id :: id in superseded ==> id in lens && |superseded[id]| <= lens[id]
  }

  lemma SavepointStartsGrowth(tx: Tx, sp: Uuid)
    ensures GrownFrom(tx, sp, MakeSavepoint(tx, sp))
  {
  }

  /** Every read and write of the transaction keeps its work undoable to `sp`. */
  lemma WorkStaysGrown(base: Tx, sp: Uuid, tx: Tx, id: Uuid, e: Entity)
    requires GrownFrom(base, sp, tx)
    ensures GrownFrom(base, sp, SaveIn(tx, id, e))
    ensures GrownFrom(base, sp, DeleteIn(tx, id))
    ensures GrownFrom(base, sp, AfterGet(tx, id))
  {
    var s := SaveIn(tx, id, e).superseded;
    forall x | x in base.superseded ensures x in s && base.superseded[x] <= s[x] {
      assert tx.superseded[x] <= s[x];
    }
  }

  /** So does taking or releasing a savepoint since, ... */
  lemma NestingStaysGrown(base: Tx, sp: Uuid, tx: Tx, inner: Uuid)
    requires GrownFrom(base, sp, tx) && inner != sp && inner !in base.savepoints
    ensures GrownFrom(base, sp, MakeSavepoint(tx, inner))
    ensures GrownFrom(base, sp, ReleaseSavepoint(tx, inner))
  {
    forall id | id in base.superseded
      ensures id in SavepointOf(tx).lens && |base.superseded[id]| <= SavepointOf(tx).lens[id]
    {
      assert base.superseded[id] <= tx.superseded[id];
    }
    assert Covers(SavepointOf(tx).lens, base.superseded);
  }

  /** ... and rolling back to one. */
  lemma InnerRollbackStaysGrown(base: Tx, sp: Uuid, tx: Tx, inner: Uuid)
    requires GrownFrom(base, sp, tx) && inner != sp && inner !in base.savepoints
    requires inner in tx.savepoints
    ensures GrownFrom(base, sp, RollbackTo(tx, inner))
  {
    var tx' := RollbackTo(tx, inner);
    assert Covers(tx.savepoints[inner].lens, base.superseded);
    forall id | id in base.superseded
      ensures id in tx'.superseded && base.superseded[id] <= tx'.superseded[id]
    {
      assert base.superseded[id] <= tx.superseded[id];
    }
  }

  /** Rolling back to a savepoint restores exactly the work present when it was
      taken: buffer, deletes, read set, write set and superseded values. */
  lemma RollbackRestores(base: Tx, sp: Uuid, tx: Tx)
    requires GrownFrom(base, sp, tx)
    ensures SameWork(RollbackTo(tx, sp), base)
  {
    var s := RollbackTo(tx, sp).superseded;
    forall id | id in s ensures id in base.superseded && s[id] == base.superseded[id] {
      assert base.superseded[id] <= tx.superseded[id];
    }
    forall id | id in base.superseded ensures id in s {
      assert id in SavepointOf(base).lens;
    }
    assert s == base.superseded;
  }

  /** In linear nesting the rollback neither panics nor exposes an empty slot, and
      truncates. */
  lemma LinearRollbackTruncates(base: Tx, sp: Uuid, tx: Tx, spare: Spare)
    requires GrownFrom(base, sp, tx)
    ensures RollbackIn(tx, spare, sp) == Ended(RollbackTo(tx, sp))
  {
    var p := tx.savepoints[sp];
    forall id | id in tx.superseded
      ensures Reslices(tx, spare, p, id) && !PastCapacity(tx, spare, p, id)
      ensures id in p.lens ==> Unwrap(Array(tx, spare, id)[..p.lens[id]]) == Truncate(tx.superseded[id], p.lens[id])
    {
      if id in p.lens {
        assert base.superseded[id] <= tx.superseded[id];
      }
    }
    assert ListsAfter(tx, spare, p, tx.superseded.Keys) == RollbackTo(tx, sp).superseded;
  }

  /** The arrays still hold, as a prefix, what the lists of `base` held. */
  predicate Holds(base: Tx, tx: Tx, spare: Spare) {
    forall id :: id in base.superseded ==>
      id in tx.superseded && Wrap(base.superseded[id]) <= Array(tx, spare, id)
  }

  /** Over all states, however the savepoints were used and whatever the capacities: the
      rollback restores the work exactly when the arrays still hold what the superseded
      lists held; otherwise it panics, leaves empty slots, or restores everything but
      those lists. */
  lemma RollbackRestoresExactlyWhen(base: Tx, sp: Uuid, tx: Tx, spare: Spare)
    requires sp in tx.savepoints && tx.savepoints[sp] == SavepointOf(base)
    requires tx.id == base.id && tx.tenant == base.tenant && tx.snapshot == base.snapshot
    requires tx.rolledBack == base.rolledBack && tx.closed == base.closed
    ensures
      var r := RollbackIn(tx, spare, sp);
      && (r.Ended? && SameWork(r.tx, base) <==> Holds(base, tx, spare))
      && (r.Ended? ==> SameWork(r.tx.(superseded := base.superseded), base))
  {
    if Holds(base, tx, spare) {
      HeldIsRestored(base, sp, tx, spare);
    }
    if RollbackIn(tx, spare, sp).Ended? && RollbackIn(tx, spare, sp).tx.superseded == base.superseded {
      RestoredWasHeld(base, sp, tx, spare);
    }
  }

  lemma HeldIsRestored(base: Tx, sp: Uuid, tx: Tx, spare: Spare)
    requires sp in tx.savepoints && tx.savepoints[sp] == SavepointOf(base) && Holds(base, tx, spare)
    ensures RollbackIn(tx, spare, sp).Ended? && RollbackIn(tx, spare, sp).tx.superseded == base.superseded
  {
    var p := tx.savepoints[sp];
    forall id | id in tx.superseded
      ensures Reslices(tx, spare, p, id) && !PastCapacity(tx, spare, p, id)
      ensures id in p.lens ==> Resliced(tx, spare, p, id) == base.superseded[id]
    {
      if id in p.lens {
        assert Array(tx, spare, id)[..p.lens[id]] == Wrap(base.superseded[id]);
      }
    }
    var lists := ListsAfter(tx, spare, p, tx.superseded.Keys);
    forall id | id in base.superseded ensures id in lists && lists[id] == base.superseded[id] {
      assert id in tx.superseded && id in p.lens;
    }
    forall id | id in lists ensures id in base.superseded {
      assert id in p.lens;
    }
    assert lists == base.superseded;
  }

  lemma RestoredWasHeld(base: Tx, sp: Uuid, tx: Tx, spare: Spare)
    requires sp in tx.savepoints && tx.savepoints[sp] == SavepointOf(base)
    requires RollbackIn(tx, spare, sp).Ended? && RollbackIn(tx, spare, sp).tx.superseded == base.superseded
    ensures Holds(base, tx, spare)
  {
    var p := tx.savepoints[sp];
    forall id | id in base.superseded
      ensures id in tx.superseded && Wrap(base.superseded[id]) <= Array(tx, spare, id)
    {
      var slots := Array(tx, spare, id)[..p.lens[id]];
      assert base.superseded[id] == Unwrap(slots);
      assert Wrap(Unwrap(slots)) == slots;
    }
  }

  /** Savepoint 8 inside savepoint 7, both after a save of 9; 9 saved twice; then back to
      7 before 8 was taken, and on to 8: whatever the capacities, the first superseded
      value is gone. */
  lemma RollbackPastLosesVersions(a: Entity, b: Entity) returns (base: Tx, tx: Tx)
    ensures 8 in tx.savepoints && tx.savepoints[8] == SavepointOf(base) && base.id == tx.id && 9 in base.superseded
    ensures forall spare :: RollbackIn(tx, spare, 8).Ended? && 9 !in RollbackIn(tx, spare, 8).tx.superseded
  {
    var t0 := MakeSavepoint(SaveIn(NewTx(4, 1, 0), 9, a), 7);
    base := SaveIn(t0, 9, b);
    var t1 := MakeSavepoint(base, 8);
    LinearRollbackTruncates(SaveIn(NewTx(4, 1, 0), 9, a), 7, t1, map[]);
    tx := RollbackTo(t1, 7);
  }

  /** A staged delete is not consulted by a second delete of the same committed
      entity: it is accepted although the transaction's own view has no entity. */
  lemma DeleteAcceptedExactlyWhen(tx: Tx, vs: seq<Row>, id: Uuid)
    requires TxOk(tx)
    ensures AllAtMost(vs, tx.snapshot) ==>
      (DeleteAccepts(tx, vs, id) <==> TxView(tx, vs, id).Some? || (id in tx.deletes && Latest(vs).Some?))
  {
    if AllAtMost(vs, tx.snapshot) {
      NothingLaterIsLatest(vs, tx.snapshot);
    }
  }
}
