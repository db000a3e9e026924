/** The transaction manager as the object it is: fields updated in place by its
    calls, each call proved to be the corresponding events of the state machine
    run back to back, with the loops of the source doing the work. */
module Manager {
  import opened Json
  import opened Versions
  import opened Transactions
  import opened TxSystem

  datatype Outcome =
    | Done | NotFound | TenantMismatch | CommitInProgress | Conflict | SavepointNotFound
    | RolledBack | AlreadyCommitted | EmptyToken | Panic | EmptySlots

  /** How an operation under a transaction that takes no more work is refused. */
  function Refusal(tx: Tx): Outcome {
    if tx.rolledBack then RolledBack else if tx.closed then AlreadyCommitted else Done
  }

  /** How an operation on savepoints is refused, in the order the manager looks. */
  function SavepointRefusal(s: State, t: Uuid, caller: Uuid): Outcome
    requires s.active <= s.txs.Keys
  {
    if t !in s.active then NotFound
    else if s.txs[t].tenant != caller then TenantMismatch
    else Refusal(s.txs[t])
  }

  /** The nested scan of the committed log against the read and write sets. */
  method ScanForConflict(log: seq<Committed>, base: nat, tx: Tx) returns (found: bool)
    ensures found == Conflicts(log, base, tx)
  {
    var i := 0;
    while i < |log|
      invariant 0 <= i <= |log|
      invariant !Conflicts(log[..i], base, tx)
    {
      if log[i].seqNo > base {
        var rest := log[i].writeSet;
        while rest != {}
          invariant rest <= log[i].writeSet
          invariant forall id :: id in log[i].writeSet - rest ==> id !in tx.readSet && id !in tx.writeSet
          decreases rest
        {
          var id := AnyOf(rest);
          if id in tx.readSet || id in tx.writeSet {
            return true;
          }
          rest := rest - {id};
        }
      }
      assert log[..i + 1] == log[..i] + [log[i]];
      i := i + 1;
    }
    assert log[..i] == log;
    return false;
  }

  /** The flush of one buffered entity: its superseded values, then the final
      one, numbered on from the newest live version. */
  method AppendVersions(vs: seq<Row>, es: seq<Entity>, txId: Uuid, stamp: int) returns (r: seq<Row>)
    ensures r == AppendSaves(vs, es, txId, stamp)
  {
    var base := BaseVersion(vs);
    r := vs;
    var i := 0;
    while i < |es|
      invariant 0 <= i <= |es|
      invariant base == LastLiveVersion(r)
      invariant AppendSaves(r, es[i..], txId, stamp) == AppendSaves(vs, es, txId, stamp)
    {
      var row := Row(Some(es[i].(txId := txId)), base + 1, txId, stamp);
      assert row == SavedRow(r, es[i], txId, stamp);
      assert es[i..][1..] == es[i + 1..];
      r := r + [row];
      base := base + 1;
      i := i + 1;
    }
  }

  /** The store with only some of the transaction's ids flushed. */
  function FlushedSoFar(rows: Rows, tx: Tx, ids: set<Uuid>, stamp: int): Rows {
    map k | k in rows.Keys + (set id | id in ids :: Key(tx.tenant, id)) ::
      if k.tenant == tx.tenant && k.id in ids then FlushedRows(tx, RowsOf(rows, k), k.id, stamp) else RowsOf(rows, k)
  }

  lemma FlushOneMore(rows: Rows, tx: Tx, ids: set<Uuid>, id: Uuid, stamp: int, out: Rows, vs: seq<Row>)
    requires id !in ids && out == FlushedSoFar(rows, tx, ids, stamp)
    requires vs == FlushedRows(tx, RowsOf(rows, Key(tx.tenant, id)), id, stamp)
    ensures out[Key(tx.tenant, id) := vs] == FlushedSoFar(rows, tx, ids + {id}, stamp)
  {
    var k, next := Key(tx.tenant, id), FlushedSoFar(rows, tx, ids + {id}, stamp);
    FlushedKeys(rows, tx, ids, id, stamp);
    forall x | x in next ensures next[x] == out[k := vs][x] {
      if x != k {
        assert x.tenant == tx.tenant ==> x.id != id;
      }
    }
  }

  lemma FlushedKeys(rows: Rows, tx: Tx, ids: set<Uuid>, id: Uuid, stamp: int)
    ensures FlushedSoFar(rows, tx, ids + {id}, stamp).Keys ==
            FlushedSoFar(rows, tx, ids, stamp).Keys + {Key(tx.tenant, id)}
  {
    var a, b := FlushedSoFar(rows, tx, ids, stamp), FlushedSoFar(rows, tx, ids + {id}, stamp);
    forall k ensures k in b <==> k in a || k == Key(tx.tenant, id) {
      assert Key(k.tenant, k.id) == k;
    }
  }

  lemma NotYetFlushed(rows: Rows, tx: Tx, ids: set<Uuid>, id: Uuid, stamp: int)
    requires id !in ids
    ensures RowsOf(FlushedSoFar(rows, tx, ids, stamp), Key(tx.tenant, id)) == RowsOf(rows, Key(tx.tenant, id))
  {
  }

  /** The flush visits buffered ids, then deleted ids, in whatever order the maps
      give them. */
  method FlushBuffer(rows: Rows, tx: Tx, stamp: int) returns (out: Rows)
    ensures out == FlushedSoFar(rows, tx, tx.buffer.Keys, stamp)
  {
    out := rows;
    var ids := tx.buffer.Keys;
    ghost var flushed := {};
    assert out == FlushedSoFar(rows, tx, flushed, stamp);
    while ids != {}
      invariant ids <= tx.buffer.Keys && flushed == tx.buffer.Keys - ids
      invariant out == FlushedSoFar(rows, tx, flushed, stamp)
      decreases ids
    {
      var id := AnyOf(ids);
      var k := Key(tx.tenant, id);
      NotYetFlushed(rows, tx, flushed, id, stamp);
      var vs := AppendVersions(RowsOf(out, k), Superseded(tx, id) + [tx.buffer[id]], tx.id, stamp);
      FlushOneMore(rows, tx, flushed, id, stamp, out, vs);
      out := out[k := vs];
      flushed := flushed + {id};
      ids := ids - {id};
    }
  }

  method AppendTombstone(vs: seq<Row>, txId: Uuid, stamp: int) returns (r: seq<Row>)
    ensures r == vs + [Tombstone(vs, txId, stamp)]
  {
    var base := BaseVersion(vs);
    return vs + [Row(None, base + 1, txId, stamp)];
  }

  method FlushAll(rows: Rows, tx: Tx, stamp: int) returns (out: Rows)
    requires TxOk(tx)
    ensures out == Flush(rows, tx, stamp)
  {
    out := FlushBuffer(rows, tx, stamp);
    var ids := tx.deletes;
    ghost var flushed := tx.buffer.Keys;
    while ids != {}
      invariant ids <= tx.deletes && flushed == tx.buffer.Keys + (tx.deletes - ids)
      invariant out == FlushedSoFar(rows, tx, flushed, stamp)
      decreases ids
    {
      var id := AnyOf(ids);
      var k := Key(tx.tenant, id);
      NotYetFlushed(rows, tx, flushed, id, stamp);
      var vs := AppendTombstone(RowsOf(out, k), tx.id, stamp);
      FlushOneMore(rows, tx, flushed, id, stamp, out, vs);
      out := out[k := vs];
      flushed := flushed + {id};
      ids := ids - {id};
    }
    AllFlushed(rows, tx, stamp);
  }

  lemma AllFlushed(rows: Rows, tx: Tx, stamp: int)
    requires TxOk(tx)
    ensures FlushedSoFar(rows, tx, tx.writeSet, stamp) == Flush(rows, tx, stamp)
  {
    var a, b := FlushedSoFar(rows, tx, tx.writeSet, stamp), Flush(rows, tx, stamp);
    assert a.Keys == b.Keys;
    forall k | k in a ensures a[k] == b[k] {
      assert RowsOf(b, k) == b[k];
    }
  }

  /** The walk over open transactions for the oldest snapshot. */
  method OldestSnapshot(txs: map<Uuid, Tx>, active: set<Uuid>) returns (oldest: Option<int>)
    requires active <= txs.Keys
    ensures oldest.None? <==> active == {}
    ensures oldest.Some? ==> oldest.value in (set t | t in active :: txs[t].snapshot)
    ensures oldest.Some? ==> forall t :: t in active ==> oldest.value <= txs[t].snapshot
  {
    oldest := None;
    var rest := active;
    while rest != {}
      invariant rest <= active
      invariant oldest.None? <==> active - rest == {}
      invariant oldest.Some? ==> exists t :: t in active - rest && txs[t].snapshot == oldest.value
      invariant oldest.Some? ==> forall t :: t in active - rest ==> oldest.value <= txs[t].snapshot
      decreases rest
    {
      var t := AnyOf(rest);
      if oldest.None? || txs[t].snapshot < oldest.value {
        oldest := Some(txs[t].snapshot);
      }
      rest := rest - {t};
      assert t in active - rest;
    }
    assert active - rest == active;
  }

  /** The in-place filter of the committed log. */
  method PruneLog(log: seq<Committed>, txs: map<Uuid, Tx>, active: set<Uuid>) returns (kept: seq<Committed>)
    requires active <= txs.Keys
    ensures kept == Prune(log, set t | t in active :: txs[t].snapshot)
  {
    var snapshots := set t | t in active :: txs[t].snapshot;
    var oldest := OldestSnapshot(txs, active);
    if oldest.None? {
      kept := [];
      PruneToNothing(log, snapshots);
      return;
    }
    kept := [];
    var i := 0;
    while i < |log|
      invariant 0 <= i <= |log|
      invariant kept == Prune(log[..i], snapshots)
    {
      assert log[..i + 1][..i] == log[..i];
      if !(log[i].stamp < oldest.value) {
        assert oldest.value in snapshots;
        kept := kept + [log[i]];
      }
      i := i + 1;
    }
    assert log[..i] == log;
  }

  /** What a Commit call that gets past its first checks leaves behind. */
  function AfterCommit(s: State, t: Uuid, now: int): State
    requires t in s.active && s.active <= s.txs.Keys
  {
    if Conflicts(s.log, Baseline(s, t), s.txs[t])
    then Drop(s, t).(txs := s.txs[t := Closed(s.txs[t])])
    else
      var stamp := NextStamp(s.floor, now);
      Recorded(s.(committing := s.committing + {t}, floor := stamp, holder := Stamped(t, stamp)), t)
  }

  /** What the two ways out of Commit leave, the guard against a second one set. */
  lemma AfterCommitIs(s: State, t: Uuid, now: int)
    requires t in s.active && s.active <= s.txs.Keys
    ensures
      var s1, stamp := s.(committing := s.committing + {t}), NextStamp(s.floor, now);
      AfterCommit(s, t, now) ==
      if Conflicts(s.log, Baseline(s, t), s.txs[t]) then Drop(s1, t).(txs := s.txs[t := Closed(s.txs[t])])
      else Recorded(s1.(floor := stamp, holder := Stamped(t, stamp)), t)
  {
    assert s.committing + {t} - {t} == s.committing - {t};
  }

  /** An uninterrupted Commit call that conflicts is its two events, ... */
  lemma AbortedCommitIsItsEvents(s: State, t: Uuid, caller: Uuid, now: int)
    requires s.active <= s.txs.Keys && s.holder.Free? && s.marked == {} && Enabled(s, CommitMark(t, caller))
    requires Conflicts(s.log, Baseline(s, t), s.txs[t])
    ensures Next(Next(s, CommitMark(t, caller)), CommitCheck(t)) == AfterCommit(s, t, now)
  {
    assert s.marked + {t} - {t} == {};
    assert s.committing + {t} - {t} == s.committing - {t};
  }

  lemma MarkAndCheck(s: State, t: Uuid, caller: Uuid) returns (s1: State, s2: State)
    requires s.holder.Free? && s.marked == {} && Enabled(s, CommitMark(t, caller))
    requires !Conflicts(s.log, Baseline(s, t), s.txs[t])
    ensures s1 == Next(s, CommitMark(t, caller)) && Enabled(s1, CommitCheck(t)) && s2 == Next(s1, CommitCheck(t))
    ensures s2 == s.(committing := s.committing + {t}, holder := Checked(t))
  {
    s1 := Next(s, CommitMark(t, caller));
    assert s1.marked - {t} == {};
    s2 := Passed(s1, t);
  }

  lemma StampAndRecord(s: State, t: Uuid, now: int) returns (s1: State)
    requires s.holder == Checked(t) && t in s.txs && s.active <= s.txs.Keys
    ensures Enabled(s, CommitStamp(t, now)) && s1 == Next(s, CommitStamp(t, now)) && Enabled(s1, CommitRecord(t))
    ensures Next(s1, CommitRecord(t)) == Recorded(StampTaken(s, t, NextStamp(s.floor, now)), t)
  {
    s1 := StampTaken(s, t, NextStamp(s.floor, now));
  }

  /** ... and one that does not is its four events, run back to back. */
  lemma CommitIsItsEvents(s: State, t: Uuid, caller: Uuid, now: int) returns (s1: State, s2: State, s3: State)
    requires s.active <= s.txs.Keys && s.holder.Free? && s.marked == {} && Enabled(s, CommitMark(t, caller))
    requires !Conflicts(s.log, Baseline(s, t), s.txs[t])
    ensures s1 == Next(s, CommitMark(t, caller)) && Enabled(s1, CommitCheck(t)) && s2 == Next(s1, CommitCheck(t))
    ensures Enabled(s2, CommitStamp(t, now)) && s3 == Next(s2, CommitStamp(t, now))
    ensures Enabled(s3, CommitRecord(t)) && Next(s3, CommitRecord(t)) == AfterCommit(s, t, now)
  {
    s1, s2 := MarkAndCheck(s, t, caller);
    s3 := StampAndRecord(s2, t, now);
  }

  /** supersededLens: the length of every superseded list. */
  method LengthsOf(lists: map<Uuid, seq<Entity>>) returns (lens: map<Uuid, nat>)
    ensures lens == map id | id in lists :: |lists[id]|
  {
    lens := map[];
    var rest := lists.Keys;
    while rest != {}
      invariant rest <= lists.Keys && lens == map id | id in lists && id !in rest :: |lists[id]|
      decreases rest
    {
      var id := AnyOf(rest);
      rest := rest - {id};
      lens := lens[id := |lists[id]|];
    }
  }

  /** The loop goes over one more list. */
  lemma OneMoreList(tx: Tx, spare: Spare, p: Transactions.Savepoint, seen: set<Uuid>, id: Uuid)
    requires id in tx.superseded && id !in seen && Reslices(tx, spare, p, id)
    requires forall x :: x in seen ==> Reslices(tx, spare, p, x)
    ensures
      var lists := ListsAfter(tx, spare, p, seen);
      ListsAfter(tx, spare, p, seen + {id}) ==
      if id in p.lens then lists[id := Resliced(tx, spare, p, id)] else lists - {id}
  {
  }

  lemma OneMoreArray(tx: Tx, spare: Spare, p: Transactions.Savepoint, seen: set<Uuid>, id: Uuid)
    requires id in tx.superseded && id !in seen && Reslices(tx, spare, p, id)
    requires forall x :: x in seen ==> Reslices(tx, spare, p, x)
    ensures
      var left := SpareAfter(tx, spare, p, seen);
      SpareAfter(tx, spare, p, seen + {id}) ==
      if id in p.lens then left[id := Leftover(tx, spare, p, id)] else left - {id}
  {
  }

  /** The loop that re-slices every superseded list to its recorded length and drops
      those without one. It panics at the first list recorded longer than its array. */
  method ResliceAll(tx: Tx, spare: Spare, p: Transactions.Savepoint)
    returns (r: Outcome, lists: map<Uuid, seq<Entity>>, left: Spare, seen: set<Uuid>)
    ensures r == Done || r == Panic || r == EmptySlots
    ensures forall id :: id in seen ==> Reslices(tx, spare, p, id)
    ensures lists == ListsAfter(tx, spare, p, seen) && left == SpareAfter(tx, spare, p, seen)
    ensures r == Done ==> seen == tx.superseded.Keys
    ensures r == Panic ==> exists id :: id in tx.superseded.Keys - seen && PastCapacity(tx, spare, p, id)
    ensures r == EmptySlots ==> LeavesHoles(tx, spare, p)
  {
    r, lists, seen := Done, tx.superseded, {};
    left := map id | id in tx.superseded :: Behind(spare, id);
    while seen != tx.superseded.Keys
      invariant r == Done && seen <= tx.superseded.Keys
      invariant forall id :: id in seen ==> Reslices(tx, spare, p, id)
      invariant lists == ListsAfter(tx, spare, p, seen) && left == SpareAfter(tx, spare, p, seen)
      decreases tx.superseded.Keys - seen
    {
      var id := AnyOf(tx.superseded.Keys - seen);
      if id in p.lens {
        var slots, n := Array(tx, spare, id), p.lens[id];
        if n > |slots| {
          r := Panic;
          return;
        }
        if !Solid(slots[..n]) {
          r := EmptySlots;
          return;
        }
        OneMoreList(tx, spare, p, seen, id);
        OneMoreArray(tx, spare, p, seen, id);
        lists, left := lists[id := Unwrap(slots[..n])], left[id := slots[n..]];
      } else {
        OneMoreList(tx, spare, p, seen, id);
        OneMoreArray(tx, spare, p, seen, id);
        lists, left := lists - {id}, left - {id};
      }
      seen := seen + {id};
    }
  }

  /** How a rollback to a savepoint left the manager: restored, or caught by a panic in
      the middle of its loop. Lists with empty slots in them are outside the model. */
  ghost predicate Rewound(s: State, t: Uuid, sp: Uuid, r: Outcome, s': State)
    requires t in s.txs && sp in s.txs[t].savepoints
  {
    match r
    case Done => Steps(s, TxSystem.RollbackToSavepoint(t, sp), s')
    case Panic => exists seen :: Steps(s, RollbackPanics(t, sp, seen), s')
    case _ => r == EmptySlots && LeavesHoles(s.txs[t], SpareOf(s, t), s.txs[t].savepoints[sp])
  }

  ghost predicate Steps(s: State, e: Event, s': State) {
    Enabled(s, e) && s' == Next(s, e)
  }

  /** The transaction after the loop has been over `ids`, without the savepoint if that
      was all. */
  function Unwound(tx: Tx, spare: Spare, sp: Uuid, ids: set<Uuid>, all: bool): Tx
    requires sp in tx.savepoints && forall id :: id in ids ==> Reslices(tx, spare, tx.savepoints[sp], id)
  {
    var undone := RestoredSoFar(tx, spare, sp, ids);
    if all then undone.(savepoints := tx.savepoints - {sp}) else undone
  }

  /** What the method writes back is what the events say. */
  lemma RewindIsItsEvent(s: State, t: Uuid, sp: Uuid, r: Outcome, seen: set<Uuid>, s': State)
    requires Open(s, t) && t in s.active && sp in s.txs[t].savepoints
    requires forall id :: id in seen ==> Reslices(s.txs[t], SpareOf(s, t), s.txs[t].savepoints[sp], id)
    requires r == Done || r == Panic
    requires r == Done ==> seen == s.txs[t].superseded.Keys
    requires r == Panic ==> PanicsAfter(s.txs[t], SpareOf(s, t), sp, seen)
    requires
      s' == s.(txs := s.txs[t := Unwound(s.txs[t], SpareOf(s, t), sp, seen, r == Done)],
               spare := s.spare[t := SpareAfter(s.txs[t], SpareOf(s, t), s.txs[t].savepoints[sp], seen)])
    ensures Rewound(s, t, sp, r, s')
  {
    if r == Done {
      assert RollbackIn(s.txs[t], SpareOf(s, t), sp).Ended?;
      assert Steps(s, TxSystem.RollbackToSavepoint(t, sp), s');
    } else {
      assert Steps(s, RollbackPanics(t, sp, seen), s');
    }
  }

  /** The state once `e` is buffered in `t`. */
  function Staged(s: State, t: Uuid, id: Uuid, e: Entity): State
    requires t in s.txs
  {
    s.(txs := s.txs[t := SaveIn(s.txs[t], id, e)], spare := s.spare[t := StageSpare(s.txs[t], SpareOf(s, t), id)])
  }

  lemma SaveStages(s: State, t: Uuid, id: Uuid, e: Entity)
    requires Open(s, t)
    ensures Enabled(s, Save(t, id, e)) && Next(s, Save(t, id, e)) == Staged(s, t, id, e)
  {
  }

  lemma SwapStages(s: State, t: Uuid, id: Uuid, e: Entity, expected: Uuid)
    requires Open(s, t) && s.holder.Free? && CasAccepts(s.txs[t], TxRows(s, t, id), id, expected)
    ensures Enabled(s, CompareAndSave(t, id, e, expected))
    ensures Next(s, CompareAndSave(t, id, e, expected)) == Staged(s, t, id, e)
  {
  }

  lemma StagedIsOk(txs: map<Uuid, Tx>, t: Uuid, id: Uuid, e: Entity)
    requires (forall x :: x in txs ==> txs[x].id == x && TxOk(txs[x])) && t in txs
    ensures var txs' := txs[t := SaveIn(txs[t], id, e)]; forall x :: x in txs' ==> txs'[x].id == x && TxOk(txs'[x])
  {
    WriteKeepsTxOk(txs[t], id, e);
  }

  class TransactionManager {
    var rows: Rows
    var txs: map<Uuid, Tx>
    var active: set<Uuid>
    var committing: set<Uuid>
    var baseline: map<Uuid, nat>
    var log: seq<Committed>
    var commitSeq: nat
    var floor: int
    var spare: map<Uuid, Spare>

    ghost function Abs(): State
      reads this
    {
      State(rows, txs, active, committing, baseline, log, commitSeq, floor, {}, Free, spare)
    }

    ghost predicate Valid()
      reads this
    {
      active <= txs.Keys && forall t :: t in txs ==> txs[t].id == t && TxOk(txs[t])
    }

    constructor ()
      ensures Valid() && Abs() == EMPTY
    {
      rows, txs, active, committing, baseline, log, commitSeq, floor := map[], map[], {}, {}, map[], [], 0, 0;
      spare := map[];
    }

    method NextSubmitTime(now: int) returns (stamp: int)
      modifies this`floor
      ensures stamp == NextStamp(old(floor), now) && floor == stamp
    {
      stamp := now;
      if !(now > floor) {
        stamp := floor + MICROSECOND;
      }
      floor := stamp;
    }

    method Begin(t: Uuid, tenant: Uuid, now: int)
      requires Valid() && t !in txs && t != NO_ID && tenant != NO_ID
      modifies this
      ensures Valid() && Abs() == Begun(old(Abs()), t, tenant, now)
    {
      var snapshot := now;
      if now < floor {
        snapshot := floor;
      }
      floor := snapshot;
      txs := txs[t := NewTx(t, tenant, snapshot)];
      active := active + {t};
      baseline := baseline[t := commitSeq];
    }

    /** The context of a joined callback: only an open transaction of the
        caller's own tenant can be joined. */
    method Join(t: Uuid, caller: Uuid) returns (r: Outcome)
      requires Valid()
      ensures r == NotFound <==> t !in active
      ensures r == RolledBack <==> t in active && txs[t].rolledBack
      ensures r == AlreadyCommitted <==> t in active && !txs[t].rolledBack && txs[t].closed
      ensures r == TenantMismatch <==> t in active && Takes(t) && txs[t].tenant != caller
      ensures r == Done <==> t in active && Takes(t) && txs[t].tenant == caller
    {
      if t !in active {
        return NotFound;
      }
      if txs[t].rolledBack {
        return RolledBack;
      }
      if txs[t].closed {
        return AlreadyCommitted;
      }
      return if txs[t].tenant != caller then TenantMismatch else Done;
    }

    method Commit(t: Uuid, caller: Uuid, now: int) returns (r: Outcome)
      requires Valid()
      modifies this
      ensures Valid()
      ensures r == NotFound <==> t !in old(active)
      ensures r == TenantMismatch <==> t in old(active) && old(txs)[t].tenant != caller
      ensures r == CommitInProgress <==> t in old(active) && old(txs)[t].tenant == caller && t in old(committing)
      ensures r == Conflict ==> t in old(active) && Conflicts(old(log), Baseline(old(Abs()), t), old(txs)[t])
      ensures r == Done ==> t in old(active) && !Conflicts(old(log), Baseline(old(Abs()), t), old(txs)[t])
      ensures Abs() == if r == Done || r == Conflict then AfterCommit(old(Abs()), t, now) else old(Abs())
    {
      if t !in active {
        return NotFound;
      }
      if txs[t].tenant != caller {
        return TenantMismatch;
      }
      if t in committing {
        return CommitInProgress;
      }
      AfterCommitIs(Abs(), t, now);
      committing := committing + {t};
      var conflict := ScanForConflict(log, if t in baseline then baseline[t] else 0, txs[t]);
      if conflict {
        Abort(t);
        return Conflict;
      }
      Publish(t, now);
      return Done;
    }

    method Abort(t: Uuid)
      requires Valid() && t in txs
      modifies this`active, this`committing, this`baseline, this`txs
      ensures Valid() && Abs() == Drop(old(Abs()), t).(txs := old(txs)[t := Closed(old(txs)[t])])
    {
      var tx := txs[t];
      Forget(t);
      txs := txs[t := Closed(tx)];
    }

    /** The part of Commit under the store lock, from stamp to record. */
    method Publish(t: Uuid, now: int)
      requires Valid() && t in active
      modifies this
      ensures Valid()
      ensures Abs() == Recorded(old(Abs()).(floor := NextStamp(old(floor), now),
                                            holder := Stamped(t, NextStamp(old(floor), now))), t)
    {
      var tx := txs[t];
      var stamp := NextSubmitTime(now);
      rows := FlushAll(rows, tx, stamp);
      commitSeq := commitSeq + 1;
      log := log + [Committed(t, stamp, commitSeq, tx.writeSet)];
      Forget(t);
      txs := txs[t := Closed(tx)];
      log := PruneLog(log, txs, active);
    }

    method Forget(t: Uuid)
      modifies this`active, this`committing, this`baseline
      ensures active == old(active) - {t} && committing == old(committing) - {t} && baseline == old(baseline) - {t}
    {
      active, committing, baseline := active - {t}, committing - {t}, baseline - {t};
    }

    method Rollback(t: Uuid, caller: Uuid) returns (r: Outcome)
      requires Valid()
      modifies this
      ensures Valid()
      ensures r == NotFound <==> t !in old(active)
      ensures r == TenantMismatch <==> t in old(active) && old(txs)[t].tenant != caller
      ensures r != Done ==> Abs() == old(Abs())
      ensures r == Done ==> t in old(txs) && Abs() == Undone(old(Abs()), t)
      ensures r in {Done, NotFound, TenantMismatch}
    {
      if t !in active {
        return NotFound;
      }
      if txs[t].tenant != caller {
        return TenantMismatch;
      }
      txs := txs[t := Closed(txs[t]).(rolledBack := true)];
      Forget(t);
      return Done;
    }

    predicate Takes(t: Uuid)
      reads this
    {
      t in txs && !txs[t].closed && !txs[t].rolledBack
    }

    /** Read under a transaction: its own work first, else its snapshot. */
    method Get(t: Uuid, id: Uuid) returns (r: Outcome, found: Option<Entity>)
      requires Valid() && t in txs && forall k :: Ordered(RowsOf(rows, k))
      modifies this`txs
      ensures Valid()
      ensures !old(Takes(t)) ==> r == Refusal(old(txs)[t]) && found == None && Abs() == old(Abs())
      ensures old(Takes(t)) ==>
        && Abs() == Next(old(Abs()), TxSystem.Get(t, id))
        && found == TxView(old(txs)[t], TxRows(old(Abs()), t, id), id)
        && r == if found.Some? then Done else NotFound
    {
      var tx := txs[t];
      if tx.rolledBack {
        return RolledBack, None;
      }
      if tx.closed {
        return AlreadyCommitted, None;
      }
      if id in tx.deletes {
        txs := txs[t := tx];
        return NotFound, None;
      }
      txs := txs[t := tx.(readSet := tx.readSet + {id})];
      if id in tx.buffer {
        return Done, Some(tx.buffer[id]);
      }
      found := ReadAt(RowsOf(rows, Key(tx.tenant, id)), tx.snapshot);
      r := if found.Some? then Done else NotFound;
    }

    /** Read under a transaction as at an instant: committed rows only, never its own
        work, and yet recorded as a read. */
    method GetAsAt(t: Uuid, id: Uuid, at: int) returns (r: Outcome, found: Option<Entity>)
      requires Valid() && t in txs && forall k :: Ordered(RowsOf(rows, k))
      modifies this`txs
      ensures Valid()
      ensures !old(Takes(t)) ==> r == Refusal(old(txs)[t]) && found == None && Abs() == old(Abs())
      ensures old(Takes(t)) ==>
        && Abs() == Next(old(Abs()), TxSystem.GetAsAt(t, id, at))
        && found == SnapshotAt(TxRows(old(Abs()), t, id), at)
        && r == if found.Some? then Done else NotFound
    {
      var tx := txs[t];
      if tx.rolledBack {
        return RolledBack, None;
      }
      if tx.closed {
        return AlreadyCommitted, None;
      }
      txs := txs[t := tx.(readSet := tx.readSet + {id})];
      found := ReadAt(RowsOf(rows, Key(tx.tenant, id)), at);
      r := if found.Some? then Done else NotFound;
    }

    /** stageSuperseded: the value about to be overwritten is appended to its list, in
        the next slot of the array or in a new one. */
    method StagePrior(t: Uuid, id: Uuid)
      requires t in txs
      modifies this`txs, this`spare
      ensures txs == old(txs)[t := old(txs)[t].(superseded := StageSuperseded(old(txs)[t], id))]
      ensures spare == old(spare)[t := StageSpare(old(txs)[t], SpareOf(old(Abs()), t), id)]
    {
      var tx, behind := txs[t], if t in spare then spare[t] else map[];
      if id in tx.buffer {
        var list := (if id in tx.superseded then tx.superseded[id] else []) + [tx.buffer[id]];
        tx := tx.(superseded := tx.superseded[id := list]);
        behind := behind[id := if Behind(behind, id) == [] then [] else Behind(behind, id)[1..]];
      }
      txs, spare := txs[t := tx], spare[t := behind];
    }

    /** Save under a transaction: buffered, superseding what was buffered before. */
    method Save(t: Uuid, id: Uuid, e: Entity) returns (r: Outcome)
      requires Valid() && t in txs
      modifies this`txs, this`spare
      ensures Valid() && r == Refusal(old(txs)[t])
      ensures Abs() == if r == Done then Next(old(Abs()), TxSystem.Save(t, id, e)) else old(Abs())
    {
      var tx := txs[t];
      if tx.rolledBack {
        return RolledBack;
      }
      if tx.closed {
        return AlreadyCommitted;
      }
      StagedIsOk(txs, t, id, e);
      SaveStages(Abs(), t, id, e);
      StagePrior(t, id);
      txs := txs[t := txs[t].(buffer := tx.buffer[id := e.(txId := t)],
                              writeSet := tx.writeSet + {id},
                              deletes := tx.deletes - {id})];
      assert Abs() == Staged(old(Abs()), t, id, e);
      return Done;
    }

    /** What compare-and-save compares its token with: a staged delete, the buffered
        value, or the newest committed row, in that order. */
    method MatchesToken(t: Uuid, id: Uuid, expected: Uuid) returns (matches: bool)
      requires t in txs && expected != NO_ID
      ensures matches == CasAccepts(txs[t], TxRows(Abs(), t, id), id, expected)
    {
      var tx := txs[t];
      if id in tx.deletes {
        return false;
      }
      if id in tx.buffer {
        return tx.buffer[id].txId == expected;
      }
      var vs := RowsOf(rows, Key(tx.tenant, id));
      return |vs| > 0 && vs[|vs| - 1].entity.Some? && vs[|vs| - 1].entity.value.txId == expected;
    }

    /** Compare-and-save under a transaction. */
    method CompareAndSave(t: Uuid, id: Uuid, e: Entity, expected: Uuid) returns (r: Outcome)
      requires Valid() && t in txs
      modifies this`txs, this`spare
      ensures Valid()
      ensures r == EmptyToken <==> expected == NO_ID
      ensures expected != NO_ID && !old(Takes(t)) ==> r == Refusal(old(txs)[t])
      ensures expected != NO_ID && old(Takes(t)) ==>
        r == if CasAccepts(old(txs)[t], TxRows(old(Abs()), t, id), id, expected) then Done else Conflict
      ensures Abs() == if r == Done then Next(old(Abs()), TxSystem.CompareAndSave(t, id, e, expected)) else old(Abs())
    {
      if expected == NO_ID {
        return EmptyToken;
      }
      var tx := txs[t];
      if tx.rolledBack {
        return RolledBack;
      }
      if tx.closed {
        return AlreadyCommitted;
      }
      var matches := MatchesToken(t, id, expected);
      if !matches {
        return Conflict;
      }
      StagedIsOk(txs, t, id, e);
      SwapStages(Abs(), t, id, e, expected);
      StagePrior(t, id);
      txs := txs[t := txs[t].(buffer := tx.buffer[id := e.(txId := t)], writeSet := tx.writeSet + {id})];
      assert tx.deletes - {id} == tx.deletes;
      assert Abs() == Staged(old(Abs()), t, id, e);
      return Done;
    }

    method Delete(t: Uuid, id: Uuid) returns (r: Outcome)
      requires Valid() && t in txs
      modifies this`txs
      ensures Valid()
      ensures !old(Takes(t)) ==> r == Refusal(old(txs)[t])
      ensures old(Takes(t)) ==>
        r == if DeleteAccepts(old(txs)[t], TxRows(old(Abs()), t, id), id) then Done else NotFound
      ensures Abs() == if r == Done then Next(old(Abs()), TxSystem.Delete(t, id)) else old(Abs())
    {
      var tx := txs[t];
      if tx.rolledBack {
        return RolledBack;
      }
      if tx.closed {
        return AlreadyCommitted;
      }
      if id !in tx.buffer {
        var vs := RowsOf(rows, Key(tx.tenant, id));
        if |vs| == 0 || vs[|vs| - 1].entity.None? {
          return NotFound;
        }
      }
      WriteKeepsTxOk(tx, id, Entity("", Null, NO_ID));
      txs := txs[t := DeleteIn(tx, id)];
      return Done;
    }

    /** A savepoint under a fresh id. */
    method Savepoint(t: Uuid, caller: Uuid, sp: Uuid) returns (r: Outcome)
      requires Valid() && (t in txs ==> sp !in txs[t].savepoints)
      modifies this`txs
      ensures Valid() && r == SavepointRefusal(old(Abs()), t, caller)
      ensures Abs() == if r == Done then Next(old(Abs()), TakeSavepoint(t, sp)) else old(Abs())
    {
      r := OnSavepoints(t, caller);
      if r == Done {
        var tx := txs[t];
        MarkKeepsTxOk(tx, sp);
        var lens := LengthsOf(tx.superseded);
        var p := Transactions.Savepoint(tx.buffer, tx.readSet, tx.writeSet, tx.deletes, lens);
        txs := txs[t := tx.(savepoints := tx.savepoints[sp := p])];
      }
    }

    method RollbackToSavepoint(t: Uuid, caller: Uuid, sp: Uuid) returns (r: Outcome)
      requires Valid()
      modifies this`txs, this`spare
      ensures Valid()
      ensures SavepointRefusal(old(Abs()), t, caller) != Done ==>
        r == SavepointRefusal(old(Abs()), t, caller) && Abs() == old(Abs())
      ensures SavepointRefusal(old(Abs()), t, caller) == Done && sp !in old(txs)[t].savepoints ==>
        r == SavepointNotFound && Abs() == old(Abs())
      ensures SavepointRefusal(old(Abs()), t, caller) == Done && sp in old(txs)[t].savepoints ==>
        Rewound(old(Abs()), t, sp, r, Abs())
    {
      r := OnSavepoints(t, caller);
      if r != Done {
        return;
      }
      if sp !in txs[t].savepoints {
        return SavepointNotFound;
      }
      ghost var seen;
      r, seen := Rewind(t, sp);
      if r != EmptySlots {
        RewindIsItsEvent(old(Abs()), t, sp, r, seen, Abs());
      }
    }

    method Rewind(t: Uuid, sp: Uuid) returns (r: Outcome, ghost seen: set<Uuid>)
      requires Valid() && Takes(t) && sp in txs[t].savepoints
      modifies this`txs, this`spare
      ensures Valid() && (r == Done || r == Panic || r == EmptySlots)
      ensures
        var tx, behind := old(txs)[t], SpareOf(old(Abs()), t);
        var p := tx.savepoints[sp];
        && (forall id :: id in seen ==> Reslices(tx, behind, p, id))
        && txs == old(txs)[t := Unwound(tx, behind, sp, seen, r == Done)]
        && spare == old(spare)[t := SpareAfter(tx, behind, p, seen)]
        && (r == Done ==> seen == tx.superseded.Keys)
        && (r == Panic ==> PanicsAfter(tx, behind, sp, seen))
        && (r == EmptySlots ==> LeavesHoles(tx, behind, p))
    {
      var tx := txs[t];
      var p, behind := tx.savepoints[sp], if t in spare then spare[t] else map[];
      var lists, left, passed;
      r, lists, left, passed := ResliceAll(tx, behind, p);
      seen := passed;
      RollbackKeepsTxOk(tx, behind, sp, passed);
      var undone := tx.(buffer := p.buffer, readSet := p.readSet, writeSet := p.writeSet, deletes := p.deletes,
                        superseded := lists);
      if r == Done {
        undone := undone.(savepoints := tx.savepoints - {sp});
      }
      txs, spare := txs[t := undone], spare[t := left];
    }

    /** The checks every operation on savepoints starts with. */
    method OnSavepoints(t: Uuid, caller: Uuid) returns (r: Outcome)
      requires Valid()
      ensures r == SavepointRefusal(Abs(), t, caller)
    {
      if t !in active {
        return NotFound;
      }
      if txs[t].tenant != caller {
        return TenantMismatch;
      }
      if txs[t].rolledBack {
        return RolledBack;
      }
      return if txs[t].closed then AlreadyCommitted else Done;
    }
  }
}
