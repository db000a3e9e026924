/** The transaction manager as a state machine. Each event is one critical
    section of the source, so a run of events is any interleaving of owners,
    token-carrying callbacks, other transactions and direct writes.

    Locks become enabledness. `holder` is the commit that holds the store's
    write lock, which it keeps from conflict check to log record, so nothing
    that touches rows may interleave with it, while a Begin may. A held commit
    also holds its own transaction's operation lock. The rows it flushes are
    unobservable until it lets go, so the flush is part of its last event. */
module TxSystem {
  import opened Json
  import opened Versions
  import opened Transactions

  const MICROSECOND: int := 1000

  /** Entry of the committed log that first-committer-wins consults. */
  datatype Committed = Committed(txId: Uuid, stamp: int, seqNo: nat, writeSet: set<Uuid>)

  datatype Holder = Free | Checked(tx: Uuid) | Stamped(tx: Uuid, stamp: int)

  datatype State = State(
    rows: Rows,
    txs: map<Uuid, Tx>,        // every transaction object ever begun
    active: set<Uuid>,         // the manager's table of open transactions
    committing: set<Uuid>,     // guard against a second commit of the same one
    baseline: map<Uuid, nat>,  // commitSeq at Begin, per active transaction
    log: seq<Committed>,
    commitSeq: nat,
    floor: int,                  // lastSubmitTime: at or above every stamp and snapshot
    marked: set<Uuid>,         // Commit calls waiting for the locks
    holder: Holder,
    spare: map<Uuid, Spare>)   // the arrays behind each transaction's superseded lists

  datatype Event =
    | Begin(t: Uuid, tenant: Uuid, now: int)
    | Get(t: Uuid, id: Uuid)
    | GetAsAt(t: Uuid, id: Uuid, at: int)
    | Save(t: Uuid, id: Uuid, e: Entity)
    | CompareAndSave(t: Uuid, id: Uuid, e: Entity, expected: Uuid)
    | Delete(t: Uuid, id: Uuid)
    | TakeSavepoint(t: Uuid, sp: Uuid)
    | RollbackToSavepoint(t: Uuid, sp: Uuid)
    | RollbackPanics(t: Uuid, sp: Uuid, seen: set<Uuid>)  // after its loop has been over `seen`
    | DropSavepoint(t: Uuid, sp: Uuid)
    | Reserve(t: Uuid, id: Uuid, room: nat)               // the runtime's choice of a capacity
    | CommitMark(t: Uuid, tenant: Uuid)
    | CommitCheck(t: Uuid)
    | CommitStamp(t: Uuid, now: int)
    | CommitRecord(t: Uuid)
    | Rollback(t: Uuid)
    | DirectSave(k: Key, e: Entity, now: int)
    | DirectDelete(k: Key, now: int)

  const EMPTY := State(map[], map[], {}, {}, map[], [], 0, 0, {}, Free, map[])

  /** The operation lock of `t` is free and the transaction still takes work. */
  predicate Open(s: State, t: Uuid) {
    && t in s.txs && !s.txs[t].closed && !s.txs[t].rolledBack
    && (s.holder.Free? || s.holder.tx != t)
  }

  function SpareOf(s: State, t: Uuid): Spare {
    if t in s.spare then s.spare[t] else map[]
  }

  function TxRows(s: State, t: Uuid, id: Uuid): seq<Row>
    requires t in s.txs
  {
    RowsOf(s.rows, Key(s.txs[t].tenant, id))
  }

  /** Reading committed rows needs the store lock; the buffer does not. */
  predicate OwnWork(tx: Tx, id: Uuid) {
    id in tx.buffer || id in tx.deletes
  }

  function Baseline(s: State, t: Uuid): nat {
    if t in s.baseline then s.baseline[t] else 0
  }

  /** First-committer-wins: some commit sequenced after this one's Begin wrote
      an entity this one read or wrote. */
  predicate Conflicts(log: seq<Committed>, base: nat, tx: Tx) {
    exists i, id :: 0 <= i < |log| && log[i].seqNo > base && id in log[i].writeSet &&
                    (id in tx.readSet || id in tx.writeSet)
  }

  /** Submit stamps move strictly past every earlier stamp and open snapshot,
      whatever the clock says. */
  function NextStamp(floor: int, now: int): (r: int)
    ensures r > floor && r >= now
  {
    if now > floor then now else floor + MICROSECOND
  }

  function Snapshots(s: State): set<int>
    requires s.active <= s.txs.Keys
  {
    set t | t in s.active :: s.txs[t].snapshot
  }

  /** Log entries stamped before the oldest open snapshot are dropped; with no
      open transaction, all are. */
  function Prune(log: seq<Committed>, snapshots: set<int>): seq<Committed> {
    if log == [] then []
    else
      var rest := Prune(log[..|log| - 1], snapshots);
      var c := log[|log| - 1];
      if exists x :: x in snapshots && x <= c.stamp then rest + [c] else rest
  }

  lemma {:induction false} PruneToNothing(log: seq<Committed>, snapshots: set<int>)
    requires snapshots == {}
    ensures Prune(log, snapshots) == []
  {
    if log != [] {
      PruneToNothing(log[..|log| - 1], snapshots);
    }
  }

  /** Events that work on one open transaction object only. */
  predicate TxWork(e: Event) {
    || e.Get? || e.GetAsAt? || e.Save? || e.CompareAndSave? || e.Delete?
    || e.TakeSavepoint? || e.RollbackToSavepoint? || e.RollbackPanics? || e.DropSavepoint? || e.Reserve?
  }

  /** What such an event needs of the transaction's savepoints and lists. */
  predicate Fits(tx: Tx, spare: Spare, e: Event) {
    match e
    case TakeSavepoint(_, sp) => sp !in tx.savepoints
    case RollbackToSavepoint(_, sp) => sp in tx.savepoints && RollbackIn(tx, spare, sp).Ended?
    case RollbackPanics(_, sp, seen) => sp in tx.savepoints && PanicsAfter(tx, spare, sp, seen)
    case DropSavepoint(_, sp) => sp in tx.savepoints
    case Reserve(_, id, _) => id in tx.superseded && Behind(spare, id) == []
    case _ => true
  }

  /** What it needs of the store and of the manager's table. */
  predicate Admits(s: State, e: Event)
    requires TxWork(e) && e.t in s.txs
  {
    match e
    case Get(t, id) => s.holder.Free? || OwnWork(s.txs[t], id)
    case GetAsAt(_, _, _) => s.holder.Free?
    case Save(_, _, _) => true
    case CompareAndSave(t, id, _, expected) =>
      (s.holder.Free? || OwnWork(s.txs[t], id)) && CasAccepts(s.txs[t], TxRows(s, t, id), id, expected)
    case Delete(t, id) =>
      (s.holder.Free? || id in s.txs[t].buffer) && DeleteAccepts(s.txs[t], TxRows(s, t, id), id)
    case Reserve(_, _, _) => true
    case _ => e.t in s.active
  }

  predicate CanWork(s: State, e: Event)
    requires TxWork(e)
  {
    Open(s, e.t) && Fits(s.txs[e.t], SpareOf(s, e.t), e) && Admits(s, e)
  }

  predicate Enabled(s: State, e: Event) {
    if TxWork(e) then CanWork(s, e)
    else
      match e
      case Begin(t, tenant, now) => t !in s.txs && t != NO_ID && tenant != NO_ID
      case CommitMark(t, tenant) =>
        t in s.active && t in s.txs && s.txs[t].tenant == tenant && t !in s.committing
      case CommitCheck(t) => t in s.marked && t in s.txs && s.holder.Free?
      case CommitStamp(t, now) => s.holder == Checked(t)
      case CommitRecord(t) => s.holder.Stamped? && s.holder.tx == t && t in s.txs && s.active <= s.txs.Keys
      case Rollback(t) => t in s.txs && (s.holder.Free? || s.holder.tx != t)
      case DirectSave(k, v, now) => s.holder.Free?
      case DirectDelete(k, now) => s.holder.Free? && Latest(RowsOf(s.rows, k)).Some?
  }

  /** Forget `t` in the manager's tables. */
  function Drop(s: State, t: Uuid): State {
    s.(active := s.active - {t}, committing := s.committing - {t}, baseline := s.baseline - {t})
  }

  function Begun(s: State, t: Uuid, tenant: Uuid, now: int): State {
    var snapshot := if now < s.floor then s.floor else now;
    s.(txs := s.txs[t := NewTx(t, tenant, snapshot)], active := s.active + {t},
       baseline := s.baseline[t := s.commitSeq], floor := snapshot)
  }

  /** The conflict check of `t` fails, and the transaction is over; ... */
  function Refused(s: State, t: Uuid): State
    requires t in s.txs
  {
    Drop(s, t).(txs := s.txs[t := Closed(s.txs[t])], marked := s.marked - {t})
  }

  /** ... or it passes, and the commit holds the lock. */
  function Passed(s: State, t: Uuid): State {
    s.(marked := s.marked - {t}, holder := Checked(t))
  }

  function StampTaken(s: State, t: Uuid, stamp: int): State {
    s.(floor := stamp, holder := Stamped(t, stamp))
  }

  function Undone(s: State, t: Uuid): State
    requires t in s.txs
  {
    Drop(s, t).(txs := s.txs[t := Closed(s.txs[t]).(rolledBack := true)])
  }

  function WrittenDirectly(s: State, k: Key, r: Row): State {
    s.(rows := s.rows[k := RowsOf(s.rows, k) + [r]], floor := r.stamp)
  }

  function Recorded(s: State, t: Uuid): State
    requires s.holder.Stamped? && t in s.txs && s.active <= s.txs.Keys
  {
    var tx := s.txs[t];
    var c := Committed(t, s.holder.stamp, s.commitSeq + 1, tx.writeSet);
    var s1 := Drop(s, t).(rows := Flush(s.rows, tx, s.holder.stamp),
                          txs := s.txs[t := Closed(tx)],
                          commitSeq := s.commitSeq + 1, holder := Free);
    s1.(log := Prune(s.log + [c], Snapshots(s1)))
  }

  /** The transaction after work on it, ... */
  function Worked(tx: Tx, spare: Spare, e: Event): Tx
    requires TxWork(e) && Fits(tx, spare, e)
  {
    match e
    case Get(_, id) => AfterGet(tx, id)
    case GetAsAt(_, id, _) => tx.(readSet := tx.readSet + {id})
    case Save(_, id, v) => SaveIn(tx, id, v)
    case CompareAndSave(_, id, v, _) => SaveIn(tx, id, v)
    case Delete(_, id) => DeleteIn(tx, id)
    case TakeSavepoint(_, sp) => MakeSavepoint(tx, sp)
    case RollbackToSavepoint(_, sp) => RollbackIn(tx, spare, sp).tx
    case RollbackPanics(_, sp, seen) => RestoredSoFar(tx, spare, sp, seen)
    case DropSavepoint(_, sp) => ReleaseSavepoint(tx, sp)
    case Reserve(_, _, _) => tx
  }

  /** ... and the arrays behind its superseded lists. */
  function Rearranged(tx: Tx, spare: Spare, e: Event): Spare
    requires Relists(e) && Fits(tx, spare, e)
  {
    match e
    case Save(_, id, _) => StageSpare(tx, spare, id)
    case CompareAndSave(_, id, _, _) => StageSpare(tx, spare, id)
    case RollbackToSavepoint(_, sp) => SpareAfter(tx, spare, tx.savepoints[sp], tx.superseded.Keys)
    case RollbackPanics(_, sp, seen) => SpareAfter(tx, spare, tx.savepoints[sp], seen)
    case Reserve(_, id, room) => Reserved(spare, id, room)
  }

  predicate Relists(e: Event) {
    e.Save? || e.CompareAndSave? || e.RollbackToSavepoint? || e.RollbackPanics? || e.Reserve?
  }

  function AfterWork(s: State, e: Event): State
    requires TxWork(e) && CanWork(s, e)
  {
    var tx, spare := s.txs[e.t], SpareOf(s, e.t);
    s.(txs := s.txs[e.t := Worked(tx, spare, e)],
       spare := if Relists(e) then s.spare[e.t := Rearranged(tx, spare, e)] else s.spare)
  }

  function Next(s: State, e: Event): State
    requires Enabled(s, e)
  {
    if TxWork(e) then AfterWork(s, e)
    else
      match e
      case Begin(t, tenant, now) => Begun(s, t, tenant, now)
      case CommitMark(t, _) => s.(committing := s.committing + {t}, marked := s.marked + {t})
      case CommitCheck(t) => if Conflicts(s.log, Baseline(s, t), s.txs[t]) then Refused(s, t) else Passed(s, t)
      case CommitStamp(t, now) => StampTaken(s, t, NextStamp(s.floor, now))
      case CommitRecord(t) => Recorded(s, t)
      case Rollback(t) => Undone(s, t)
      case DirectSave(k, v, now) =>
        WrittenDirectly(s, k, SavedRow(RowsOf(s.rows, k), v, v.txId, NextStamp(s.floor, now)))
      case DirectDelete(k, now) =>
        WrittenDirectly(s, k, Tombstone(RowsOf(s.rows, k), NO_ID, NextStamp(s.floor, now)))
  }

  lemma {:induction false} PruneKeeps(log: seq<Committed>, snapshots: set<int>, c: Committed)
    ensures c in Prune(log, snapshots) <==> c in log && exists x :: x in snapshots && x <= c.stamp
  {
    if log != [] {
      PruneKeeps(log[..|log| - 1], snapshots, c);
      assert log == log[..|log| - 1] + [log[|log| - 1]];
    }
  }
}
