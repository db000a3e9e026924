/** Snapshot isolation and first-committer-wins, over every run of the
    transaction manager (docs/CONSISTENCY.md states the contract). */
module Isolation {
  import opened Json
  import opened Versions
  import opened Transactions
  import opened TxSystem

  /** History variables: they record what happened and never influence a step. */
  datatype World = World(
    s: State,
    dirtied: map<Uuid, set<Key>>,  // keys written directly since a transaction began
    overlapped: set<Uuid>)         // transactions begun between a commit's stamp and its record

  const START := World(EMPTY, map[], {})

  function Step(w: World, e: Event): World
    requires Enabled(w.s, e)
  {
    match e
    case Begin(t, tenant, now) => BegunWorld(w, t, tenant, now)
    case DirectSave(k, _, _) => World(Next(w.s, e), Dirty(w.dirtied, k), w.overlapped)
    case DirectDelete(k, _) => World(Next(w.s, e), Dirty(w.dirtied, k), w.overlapped)
    case _ => w.(s := Next(w.s, e))
  }

  function BegunWorld(w: World, t: Uuid, tenant: Uuid, now: int): World {
    World(Begun(w.s, t, tenant, now), w.dirtied[t := {}],
          if w.s.holder.Stamped? then w.overlapped + {t} else w.overlapped)
  }

  function Dirty(dirtied: map<Uuid, set<Key>>, k: Key): map<Uuid, set<Key>> {
    map t | t in dirtied :: dirtied[t] + {k}
  }

  ghost predicate Runs(w: World, es: seq<Event>, w': World)
    decreases |es|
  {
    if es == [] then w == w'
    else Enabled(w.s, es[0]) && Runs(Step(w, es[0]), es[1..], w')
  }

  const NOTHING := Entity("", Null, NO_ID)

  // --- the invariant -----------------------------------------------------

  ghost predicate RowsFit(s: State) {
    && (forall k :: Ordered(RowsOf(s.rows, k)) && AllAtMost(RowsOf(s.rows, k), s.floor))
    && (s.holder.Stamped? ==>
          s.holder.stamp <= s.floor && forall k :: AllAtMost(RowsOf(s.rows, k), s.holder.stamp))
  }

  predicate TxsOk(s: State) {
    && (forall t :: t in s.txs ==> s.txs[t].id == t && TxOk(s.txs[t]))
    && s.active <= s.txs.Keys && s.marked <= s.txs.Keys
    && (!s.holder.Free? ==> s.holder.tx in s.txs)
    && s.active == s.baseline.Keys
    && (forall i :: 0 <= i < |s.log| ==> s.log[i].seqNo <= s.commitSeq)
    && (forall t :: t in s.active ==>
          s.baseline[t] <= s.commitSeq && s.txs[t].snapshot <= s.floor && !s.txs[t].closed && !s.txs[t].rolledBack)
  }

  /** The log entry is of a transaction of this tenant; the log itself keeps no
      tenants, only ids. */
  predicate OfTenant(s: State, c: Committed, tenant: Uuid) {
    c.txId in s.txs && s.txs[c.txId].tenant == tenant
  }

  /** A log entry of `k`'s tenant that will make `t` conflict on `k`, stamped past its
      snapshot. */
  predicate Guards(s: State, c: Committed, t: Uuid, k: Key)
    requires t in s.txs
  {
    c.seqNo > Baseline(s, t) && c.stamp > s.txs[t].snapshot && k.id in c.writeSet && OfTenant(s, c, k.tenant)
  }

  /** Either `k` has no row past `t`'s snapshot, or a direct write put it there,
      or the log still holds the commit that did. */
  ghost predicate Covered(w: World, t: Uuid, k: Key)
    requires t in w.s.txs && t in w.dirtied
  {
    || AllAtMost(RowsOf(w.s.rows, k), w.s.txs[t].snapshot)
    || k in w.dirtied[t]
    || exists i :: 0 <= i < |w.s.log| && Guards(w.s, w.s.log[i], t, k)
  }

  predicate RowAt(rows: Rows, k: Key, stamp: int) {
    exists i :: 0 <= i < |RowsOf(rows, k)| && RowsOf(rows, k)[i].stamp == stamp
  }

  /** A log entry stands for rows: each id it wrote has one with its stamp, in its
      transaction's tenant. */
  predicate Backed(s: State, c: Committed) {
    c.txId in s.txs && forall id :: id in c.writeSet ==> RowAt(s.rows, Key(s.txs[c.txId].tenant, id), c.stamp)
  }

  /** Unless `t` began between a commit's stamp and its record, the log entries
      sequenced after its Begin are stamped past its snapshot. */
  predicate StampedLater(s: State, t: Uuid, c: Committed)
    requires t in s.txs
  {
    c.seqNo > Baseline(s, t) ==> c.stamp > s.txs[t].snapshot
  }

  predicate LogOk(s: State, overlapped: set<Uuid>)
    requires s.active <= s.txs.Keys
  {
    && (forall i :: 0 <= i < |s.log| ==> Backed(s, s.log[i]))
    && (forall t, i :: t in s.active && t !in overlapped && 0 <= i < |s.log| ==> StampedLater(s, t, s.log[i]))
  }

  ghost predicate AllCovered(w: World)
    requires w.s.active <= w.s.txs.Keys == w.dirtied.Keys
  {
    forall t, k :: t in w.s.active ==> Covered(w, t, k)
  }

  /** A key dirtied by a direct write has a row past the snapshot. */
  ghost predicate DirtyIsLater(w: World)
    requires w.s.active <= w.s.txs.Keys == w.dirtied.Keys
  {
    forall t, k :: t in w.s.active && k in w.dirtied[t] ==> !AllAtMost(RowsOf(w.s.rows, k), w.s.txs[t].snapshot)
  }

  ghost predicate Inv(w: World) {
    && RowsFit(w.s) && TxsOk(w.s)
    && w.dirtied.Keys == w.s.txs.Keys && AllCovered(w) && DirtyIsLater(w)
    && LogOk(w.s, w.overlapped)
    && (w.s.holder.Stamped? ==>
          forall t :: t in w.s.active && t !in w.overlapped ==> w.s.txs[t].snapshot < w.s.holder.stamp)
  }

  lemma FlushExtends(rows: Rows, tx: Tx, stamp: int, k: Key)
    ensures RowsOf(rows, k) <= RowsOf(Flush(rows, tx, stamp), k)
    ensures forall i :: |RowsOf(rows, k)| <= i < |RowsOf(Flush(rows, tx, stamp), k)| ==>
              RowsOf(Flush(rows, tx, stamp), k)[i].stamp == stamp
    ensures RowsOf(Flush(rows, tx, stamp), k) != RowsOf(rows, k) ==>
              k.tenant == tx.tenant && (k.id in tx.buffer || k.id in tx.deletes)
    ensures k.tenant == tx.tenant && (k.id in tx.buffer || k.id in tx.deletes) ==>
              |RowsOf(Flush(rows, tx, stamp), k)| > |RowsOf(rows, k)|
  {
    if k.tenant == tx.tenant && k.id in tx.buffer {
      AppendSavesExtends(RowsOf(rows, k), Superseded(tx, k.id) + [tx.buffer[k.id]], tx.id, stamp);
    }
  }

  /** Nothing that bears on the open transactions `t` of `s'` has changed. */
  predicate SameFor(s: State, s': State) {
    && s'.log == s.log && s.txs.Keys <= s'.txs.Keys && s'.active <= s.active
    && (forall t :: t in s.txs ==> s'.txs[t].tenant == s.txs[t].tenant)
    && (forall t :: t in s'.active && t in s.txs ==>
          Baseline(s', t) == Baseline(s, t) && s'.txs[t].snapshot == s.txs[t].snapshot)
  }

  lemma SameKeepsCovered(w: World, s': State)
    requires w.s.active <= w.s.txs.Keys == s'.txs.Keys == w.dirtied.Keys && AllCovered(w)
    requires SameFor(w.s, s') && s'.rows == w.s.rows
    ensures AllCovered(w.(s := s'))
  {
    forall t, k | t in s'.active ensures Covered(w.(s := s'), t, k) {
      assert Covered(w, t, k);
      if i :| 0 <= i < |w.s.log| && Guards(w.s, w.s.log[i], t, k) {
        assert Guards(s', s'.log[i], t, k);
      }
    }
  }

  /** Changing only transaction objects and forgetting transactions keeps the rest. */
  lemma FrameKeepsInv(w: World, s': State)
    requires Inv(w) && TxsOk(s')
    requires s'.rows == w.s.rows && s'.floor == w.s.floor && s'.holder == w.s.holder
    requires s'.txs.Keys == w.s.txs.Keys && SameFor(w.s, s')
    ensures Inv(w.(s := s'))
  {
    SameKeepsCovered(w, s');
    SameLogKeepsLogOk(w.s, s', w.overlapped, w.overlapped);
  }

  /** Rows are never removed and transactions keep their tenant, baseline and
      snapshot, so the same log stays as good as it was. */
  lemma SameLogKeepsLogOk(s: State, s': State, overlapped: set<Uuid>, overlapped': set<Uuid>)
    requires s.active <= s.txs.Keys && s'.active <= s'.txs.Keys && LogOk(s, overlapped) && s'.log == s.log
    requires forall k :: RowsOf(s.rows, k) <= RowsOf(s'.rows, k)
    requires forall t :: t in s.txs ==> t in s'.txs && s'.txs[t].tenant == s.txs[t].tenant
    requires forall t, i :: t in s'.active && t !in overlapped' && 0 <= i < |s.log| ==>
               (t in s.active && t !in overlapped && Baseline(s', t) == Baseline(s, t) &&
                s'.txs[t].snapshot == s.txs[t].snapshot) || StampedLater(s', t, s.log[i])
    ensures LogOk(s', overlapped')
  {
    forall i | 0 <= i < |s'.log| ensures Backed(s', s'.log[i]) {
      GrowthKeepsBacked(s, s', s.log[i]);
    }
    forall t, i | t in s'.active && t !in overlapped' && 0 <= i < |s'.log| ensures StampedLater(s', t, s'.log[i]) {
      assert !StampedLater(s', t, s.log[i]) ==> StampedLater(s, t, s.log[i]);
    }
  }

  /** What such work may do to the transaction object. */
  predicate Reworked(tx: Tx, tx': Tx) {
    && TxOk(tx') && tx'.id == tx.id && tx'.snapshot == tx.snapshot && tx'.tenant == tx.tenant
    && tx'.closed == tx.closed && tx'.rolledBack == tx.rolledBack
  }

  lemma TxWorkReworks(s: State, e: Event)
    requires Enabled(s, e) && TxWork(e) && TxOk(s.txs[e.t])
    ensures
      var s' := Next(s, e);
      && e.t in s'.txs && Reworked(s.txs[e.t], s'.txs[e.t])
      && s' == s.(txs := s.txs[e.t := s'.txs[e.t]], spare := s'.spare)
  {
    var tx := s.txs[e.t];
    match e {
      case Get(_, id) =>
      case GetAsAt(_, id, _) =>
      case Save(_, id, v) => WriteKeepsTxOk(tx, id, v);
      case CompareAndSave(_, id, v, _) => WriteKeepsTxOk(tx, id, v);
      case Delete(_, id) => WriteKeepsTxOk(tx, id, NOTHING);
      case TakeSavepoint(_, sp) => MarkKeepsTxOk(tx, sp);
      case RollbackToSavepoint(t, sp) => RollbackKeepsTxOk(tx, SpareOf(s, t), sp, tx.superseded.Keys);
      case RollbackPanics(t, sp, seen) => RollbackKeepsTxOk(tx, SpareOf(s, t), sp, seen);
      case DropSavepoint(_, sp) => MarkKeepsTxOk(tx, sp);
      case Reserve(_, _, _) =>
    }
  }

  lemma TxWorkKeepsInv(w: World, e: Event)
    requires Inv(w) && Enabled(w.s, e) && TxWork(e)
    ensures Inv(Step(w, e))
  {
    TxWorkReworks(w.s, e);
    ReworkedKeepsInv(w, e.t, Next(w.s, e).txs[e.t], Next(w.s, e).spare);
  }

  lemma ReworkedKeepsInv(w: World, t: Uuid, tx: Tx, spare: map<Uuid, Spare>)
    requires Inv(w) && t in w.s.txs && Reworked(w.s.txs[t], tx)
    ensures Inv(w.(s := w.s.(txs := w.s.txs[t := tx], spare := spare)))
  {
    FrameKeepsInv(w, w.s.(txs := w.s.txs[t := tx], spare := spare));
  }

  lemma MarkKeepsInv(w: World, t: Uuid)
    requires Inv(w) && t in w.s.txs
    ensures Inv(w.(s := w.s.(committing := w.s.committing + {t}, marked := w.s.marked + {t})))
  {
    FrameKeepsInv(w, w.s.(committing := w.s.committing + {t}, marked := w.s.marked + {t}));
  }

  lemma UndoneKeepsInv(w: World, t: Uuid)
    requires Inv(w) && t in w.s.txs && (w.s.holder.Free? || w.s.holder.tx != t)
    ensures Inv(w.(s := Undone(w.s, t)))
  {
    FrameKeepsInv(w, Undone(w.s, t));
  }

  lemma RefusedKeepsInv(w: World, t: Uuid)
    requires Inv(w) && t in w.s.txs && w.s.holder.Free?
    ensures Inv(w.(s := Refused(w.s, t)))
  {
    FrameKeepsInv(w, Refused(w.s, t));
  }

  lemma BeginKeepsLog(w: World, t: Uuid, tenant: Uuid, now: int)
    requires TxsOk(w.s) && LogOk(w.s, w.overlapped) && t !in w.s.txs
    ensures LogOk(Begun(w.s, t, tenant, now), BegunWorld(w, t, tenant, now).overlapped)
  {
    SameLogKeepsLogOk(w.s, Begun(w.s, t, tenant, now), w.overlapped, BegunWorld(w, t, tenant, now).overlapped);
  }

  lemma BeginKeepsCovered(w: World, t: Uuid, tenant: Uuid, now: int)
    requires w.s.active <= w.s.txs.Keys == w.dirtied.Keys && RowsFit(w.s) && AllCovered(w) && t !in w.s.txs
    ensures AllCovered(BegunWorld(w, t, tenant, now))
  {
    var w' := BegunWorld(w, t, tenant, now);
    forall x, k | x in w'.s.active ensures Covered(w', x, k) {
      if x == t {
        assert AllAtMost(RowsOf(w.s.rows, k), w.s.floor);
      } else {
        assert Covered(w, x, k);
        if i :| 0 <= i < |w.s.log| && Guards(w.s, w.s.log[i], x, k) {
          assert Guards(w'.s, w'.s.log[i], x, k);
        }
      }
    }
  }

  lemma BeginKeepsTxsOk(s: State, t: Uuid, tenant: Uuid, now: int)
    requires TxsOk(s) && t !in s.txs
    ensures TxsOk(Begun(s, t, tenant, now))
  {
  }

  lemma BeginKeepsRowsFit(s: State, t: Uuid, tenant: Uuid, now: int)
    requires RowsFit(s) && t !in s.txs
    ensures RowsFit(Begun(s, t, tenant, now))
  {
    forall k ensures AllAtMost(RowsOf(s.rows, k), Begun(s, t, tenant, now).floor) {
      assert AllAtMost(RowsOf(s.rows, k), s.floor);
    }
  }

  lemma BeginKeepsInv(w: World, t: Uuid, tenant: Uuid, now: int)
    requires Inv(w) && t !in w.s.txs
    ensures Inv(BegunWorld(w, t, tenant, now))
  {
    BeginKeepsRowsFit(w.s, t, tenant, now);
    BeginKeepsTxsOk(w.s, t, tenant, now);
    BeginKeepsCovered(w, t, tenant, now);
    BeginKeepsLog(w, t, tenant, now);
  }

  /** Taking the lock, and stamping under it with a stamp past the floor. */
  lemma HolderKeepsInv(w: World, h: Holder, floor: int, s': State)
    requires Inv(w) && w.s.floor <= floor
    requires !h.Free? ==> h.tx in w.s.txs
    requires h.Stamped? ==> w.s.floor < h.stamp == floor
    requires s' == w.s.(marked := s'.marked, holder := h, floor := floor) && s'.marked <= w.s.marked
    ensures Inv(w.(s := s'))
  {
    SameKeepsCovered(w, s');
    SameLogKeepsLogOk(w.s, s', w.overlapped, w.overlapped);
    forall k ensures AllAtMost(RowsOf(s'.rows, k), floor) {
      assert AllAtMost(RowsOf(w.s.rows, k), w.s.floor);
    }
  }

  function DirectWorld(w: World, k: Key, r: Row): World {
    World(WrittenDirectly(w.s, k, r), Dirty(w.dirtied, k), w.overlapped)
  }

  /** A direct write: one row past the floor, and everyone open is told. */
  lemma DirectKeepsInv(w: World, k: Key, r: Row)
    requires Inv(w) && w.s.holder.Free? && r.stamp > w.s.floor
    ensures Inv(DirectWorld(w, k, r))
  {
    var s' := WrittenDirectly(w.s, k, r);
    forall x ensures Ordered(RowsOf(s'.rows, x)) && AllAtMost(RowsOf(s'.rows, x), s'.floor) {
      assert AllAtMost(RowsOf(w.s.rows, x), w.s.floor);
    }
    DirectKeepsCovered(w, k, r);
    DirectIsLater(w, k, r);
    SameLogKeepsLogOk(w.s, s', w.overlapped, w.overlapped);
  }

  lemma DirectKeepsCovered(w: World, k: Key, r: Row)
    requires w.s.active <= w.s.txs.Keys == w.dirtied.Keys && AllCovered(w)
    ensures AllCovered(DirectWorld(w, k, r))
  {
    var w' := DirectWorld(w, k, r);
    forall t, x | t in w'.s.active ensures Covered(w', t, x) {
      assert Covered(w, t, x);
      if x != k {
        assert RowsOf(w'.s.rows, x) == RowsOf(w.s.rows, x);
        if i :| 0 <= i < |w.s.log| && Guards(w.s, w.s.log[i], t, x) {
          assert Guards(w'.s, w'.s.log[i], t, x);
        }
      }
    }
  }

  lemma DirectIsLater(w: World, k: Key, r: Row)
    requires TxsOk(w.s) && w.s.txs.Keys == w.dirtied.Keys && DirtyIsLater(w) && r.stamp > w.s.floor
    ensures DirtyIsLater(DirectWorld(w, k, r))
  {
    var w' := DirectWorld(w, k, r);
    forall t, x | t in w'.s.active && x in w'.dirtied[t]
      ensures !AllAtMost(RowsOf(w'.s.rows, x), w'.s.txs[t].snapshot)
    {
      if x == k {
        assert RowsOf(w'.s.rows, k)[|RowsOf(w.s.rows, k)|] == r;
      } else {
        assert x in w.dirtied[t] && RowsOf(w'.s.rows, x) == RowsOf(w.s.rows, x);
      }
    }
  }

  /** Rows are never removed, so what backs an entry stays. */
  lemma GrowthKeepsBacked(s: State, s': State, c: Committed)
    requires Backed(s, c) && (forall k :: RowsOf(s.rows, k) <= RowsOf(s'.rows, k))
    requires c.txId in s'.txs && s'.txs[c.txId].tenant == s.txs[c.txId].tenant
    ensures Backed(s', c)
  {
    forall id | id in c.writeSet ensures RowAt(s'.rows, Key(s.txs[c.txId].tenant, id), c.stamp) {
      var k := Key(s.txs[c.txId].tenant, id);
      var i :| 0 <= i < |RowsOf(s.rows, k)| && RowsOf(s.rows, k)[i].stamp == c.stamp;
      assert RowsOf(s'.rows, k)[i] == RowsOf(s.rows, k)[i];
    }
  }

  /** The rows a held commit adds keep every history ordered and below the floor. */
  lemma FlushKeepsRowsFit(s: State, tx: Tx)
    requires RowsFit(s) && s.holder.Stamped?
    ensures RowsFit(s.(rows := Flush(s.rows, tx, s.holder.stamp), holder := Free))
  {
    var rows' := Flush(s.rows, tx, s.holder.stamp);
    forall k ensures Ordered(RowsOf(rows', k)) && AllAtMost(RowsOf(rows', k), s.floor) {
      FlushExtends(s.rows, tx, s.holder.stamp, k);
      assert AllAtMost(RowsOf(s.rows, k), s.holder.stamp);
    }
  }

  /** The commit of `t` is about to be recorded. */
  predicate Recording(s: State, t: Uuid) {
    s.holder.Stamped? && s.holder.tx == t && t in s.txs && s.active <= s.txs.Keys
  }

  /** Pruning never drops an entry stamped past an open snapshot. */
  lemma RecordKeepsEntry(s: State, t: Uuid, x: Uuid, c: Committed) returns (j: nat)
    requires TxsOk(s) && Recording(s, t) && x in s.active && x != t
    requires c in s.log || c == Committed(t, s.holder.stamp, s.commitSeq + 1, s.txs[t].writeSet)
    requires c.stamp > s.txs[x].snapshot
    ensures j < |Recorded(s, t).log| && Recorded(s, t).log[j] == c
  {
    var s' := Recorded(s, t);
    var log := s.log + [Committed(t, s.holder.stamp, s.commitSeq + 1, s.txs[t].writeSet)];
    assert s.txs[x].snapshot in Snapshots(s') by {
      assert x in s'.active && s'.txs[x] == s.txs[x];
    }
    PruneKeeps(log, Snapshots(s'), c);
    assert c in log;
    assert c in s'.log;
    j :| 0 <= j < |s'.log| && s'.log[j] == c;
  }

  lemma RecordKeepsCovered(w: World, t: Uuid, x: Uuid, k: Key)
    requires TxsOk(w.s) && Recording(w.s, t) && x in w.s.active && x != t && x in w.dirtied && Covered(w, x, k)
    ensures Covered(w.(s := Recorded(w.s, t)), x, k)
  {
    var s, s' := w.s, Recorded(w.s, t);
    assert s'.txs[x] == s.txs[x] && Baseline(s', x) == Baseline(s, x);
    if k in w.dirtied[x] {
    } else if i :| 0 <= i < |s.log| && Guards(s, s.log[i], x, k) {
      var j := RecordKeepsEntry(s, t, x, s.log[i]);
      assert Guards(s', s'.log[j], x, k);
    } else {
      RecordCoversNewRows(s, t, x, k);
    }
  }

  lemma RecordCoversNewRows(s: State, t: Uuid, x: Uuid, k: Key)
    requires TxsOk(s) && Recording(s, t) && x in s.active && x != t
    requires AllAtMost(RowsOf(s.rows, k), s.txs[x].snapshot)
    ensures
      var s' := Recorded(s, t);
      || AllAtMost(RowsOf(s'.rows, k), s.txs[x].snapshot)
      || exists j :: 0 <= j < |s'.log| && Guards(s', s'.log[j], x, k)
  {
    var s', tx, stamp := Recorded(s, t), s.txs[t], s.holder.stamp;
    FlushExtends(s.rows, tx, stamp, k);
    if stamp > s.txs[x].snapshot && RowsOf(s'.rows, k) != RowsOf(s.rows, k) {
      var j := RecordKeepsEntry(s, t, x, Committed(t, stamp, s.commitSeq + 1, tx.writeSet));
      assert Guards(s', s'.log[j], x, k);
    }
  }

  lemma RecordKeepsBacked(s: State, t: Uuid, c: Committed)
    requires TxsOk(s) && Recording(s, t) && c in Recorded(s, t).log
    requires forall i :: 0 <= i < |s.log| ==> Backed(s, s.log[i])
    ensures Backed(Recorded(s, t), c)
  {
    var s', tx, stamp := Recorded(s, t), s.txs[t], s.holder.stamp;
    RecordedEntry(s, t, c);
    forall k ensures RowsOf(s.rows, k) <= RowsOf(s'.rows, k) {
      FlushExtends(s.rows, tx, stamp, k);
    }
    if c in s.log {
      var i :| 0 <= i < |s.log| && s.log[i] == c;
      GrowthKeepsBacked(s, s', s.log[i]);
    } else {
      forall id | id in c.writeSet ensures RowAt(s'.rows, Key(tx.tenant, id), stamp) {
        var k := Key(tx.tenant, id);
        FlushExtends(s.rows, tx, stamp, k);
        assert RowsOf(s'.rows, k)[|RowsOf(s.rows, k)|].stamp == stamp;
      }
    }
  }

  lemma RecordKeepsLater(s: State, t: Uuid, c: Committed, x: Uuid)
    requires Recording(s, t) && x in s.active && x != t && s.txs[x].snapshot < s.holder.stamp
    requires (c in s.log && StampedLater(s, x, c)) || c.stamp == s.holder.stamp
    ensures StampedLater(Recorded(s, t), x, c)
  {
    assert Recorded(s, t).txs[x] == s.txs[x] && Baseline(Recorded(s, t), x) == Baseline(s, x);
  }

  lemma RecordedEntry(s: State, t: Uuid, c: Committed)
    requires Recording(s, t) && c in Recorded(s, t).log
    ensures c in s.log || c == Committed(t, s.holder.stamp, s.commitSeq + 1, s.txs[t].writeSet)
  {
    var last := Committed(t, s.holder.stamp, s.commitSeq + 1, s.txs[t].writeSet);
    PruneKeeps(s.log + [last], Snapshots(Recorded(s, t)), c);
  }

  lemma RecordKeepsLog(w: World, t: Uuid)
    requires Inv(w) && Recording(w.s, t)
    ensures LogOk(Recorded(w.s, t), w.overlapped)
  {
    var s, s' := w.s, Recorded(w.s, t);
    forall i | 0 <= i < |s'.log| ensures Backed(s', s'.log[i]) {
      assert s'.log[i] in s'.log;
      RecordKeepsBacked(s, t, s'.log[i]);
    }
    forall x, i | x in s'.active && x !in w.overlapped && 0 <= i < |s'.log| ensures StampedLater(s', x, s'.log[i]) {
      var c := s'.log[i];
      assert c in s'.log;
      RecordedEntry(s, t, c);
      if c in s.log {
        var j :| 0 <= j < |s.log| && s.log[j] == c;
        assert StampedLater(s, x, s.log[j]);
      }
      RecordKeepsLater(s, t, c, x);
    }
  }

  lemma RecordKeepsTxsOk(s: State, t: Uuid)
    requires TxsOk(s) && Recording(s, t)
    ensures TxsOk(Recorded(s, t))
  {
    var s' := Recorded(s, t);
    var tx := s.txs[t];
    var c := Committed(t, s.holder.stamp, s.commitSeq + 1, tx.writeSet);
    forall i | 0 <= i < |s'.log| ensures s'.log[i].seqNo <= s'.commitSeq {
      assert s'.log[i] in s'.log;
      RecordedEntry(s, t, s'.log[i]);
    }
  }

  lemma RecordIsLater(w: World, t: Uuid)
    requires TxsOk(w.s) && w.s.txs.Keys == w.dirtied.Keys && DirtyIsLater(w) && Recording(w.s, t)
    ensures DirtyIsLater(w.(s := Recorded(w.s, t)))
  {
    var s' := Recorded(w.s, t);
    forall x, k | x in s'.active && k in w.dirtied[x] ensures !AllAtMost(RowsOf(s'.rows, k), s'.txs[x].snapshot) {
      FlushExtends(w.s.rows, w.s.txs[t], w.s.holder.stamp, k);
      var vs := RowsOf(w.s.rows, k);
      var i :| 0 <= i < |vs| && vs[i].stamp > w.s.txs[x].snapshot;
      assert RowsOf(s'.rows, k)[i] == vs[i];
    }
  }

  lemma RecordKeepsInv(w: World, t: Uuid)
    requires Inv(w) && Recording(w.s, t)
    ensures Inv(w.(s := Recorded(w.s, t)))
  {
    var s' := Recorded(w.s, t);
    RecordKeepsTxsOk(w.s, t);
    FlushKeepsRowsFit(w.s, w.s.txs[t]);
    forall x, k | x in s'.active ensures Covered(w.(s := s'), x, k) {
      assert Covered(w, x, k);
      RecordKeepsCovered(w, t, x, k);
    }
    RecordIsLater(w, t);
    RecordKeepsLog(w, t);
  }

  lemma StepKeepsInv(w: World, e: Event)
    requires Inv(w) && Enabled(w.s, e)
    ensures Inv(Step(w, e))
  {
    if TxWork(e) {
      TxWorkKeepsInv(w, e);
    } else if e.CommitCheck? || e.CommitStamp? {
      LockKeepsInv(w, e);
    } else if e.DirectSave? || e.DirectDelete? {
      DirectStepKeepsInv(w, e);
    } else {
      match e {
        case Begin(t, tenant, now) => BeginKeepsInv(w, t, tenant, now);
        case CommitMark(t, _) => MarkKeepsInv(w, t);
        case CommitRecord(t) => RecordKeepsInv(w, t);
        case Rollback(t) => UndoneKeepsInv(w, t);
      }
    }
  }

  lemma LockKeepsInv(w: World, e: Event)
    requires Inv(w) && Enabled(w.s, e) && (e.CommitCheck? || e.CommitStamp?)
    ensures Inv(Step(w, e))
  {
    if e.CommitStamp? {
      var stamp := NextStamp(w.s.floor, e.now);
      HolderKeepsInv(w, Stamped(e.t, stamp), stamp, StampTaken(w.s, e.t, stamp));
    } else if Conflicts(w.s.log, Baseline(w.s, e.t), w.s.txs[e.t]) {
      RefusedKeepsInv(w, e.t);
    } else {
      HolderKeepsInv(w, Checked(e.t), w.s.floor, Passed(w.s, e.t));
    }
  }

  lemma DirectStepKeepsInv(w: World, e: Event)
    requires Inv(w) && Enabled(w.s, e) && (e.DirectSave? || e.DirectDelete?)
    ensures Inv(Step(w, e))
  {
    var vs, stamp := RowsOf(w.s.rows, e.k), NextStamp(w.s.floor, e.now);
    if e.DirectSave? {
      DirectKeepsInv(w, e.k, SavedRow(vs, e.e, e.e.txId, stamp));
    } else {
      DirectKeepsInv(w, e.k, Tombstone(vs, NO_ID, stamp));
    }
  }

  lemma {:induction false} RunKeepsInv(w: World, es: seq<Event>, w': World)
    requires Inv(w) && Runs(w, es, w')
    ensures Inv(w')
    decreases |es|
  {
    if es != [] {
      StepKeepsInv(w, es[0]);
      RunKeepsInv(Step(w, es[0]), es[1..], w');
    }
  }

  lemma {:induction false} RunGrows(w: World, es: seq<Event>, w': World, e: Event)
    requires Runs(w, es, w') && Enabled(w'.s, e)
    ensures Runs(w, es + [e], Step(w', e))
    decreases |es|
  {
    if es == [] {
      assert (es + [e])[1..] == [];
    } else {
      assert (es + [e])[1..] == es[1..] + [e];
      RunGrows(Step(w, es[0]), es[1..], w', e);
    }
  }

  /** One more event of a run under construction, ... */
  lemma OneMore(w0: World, es: seq<Event>, w: World, e: Event) returns (es': seq<Event>, w': World)
    requires Runs(w0, es, w) && Enabled(w.s, e)
    ensures es' == es + [e] && w' == Step(w, e) && Runs(w0, es', w')
  {
    RunGrows(w0, es, w, e);
    es', w' := es + [e], Step(w, e);
  }

  /** ... and the same for each kind of event, with what it leaves spelled out. */
  lemma Begins(w0: World, es: seq<Event>, w: World, t: Uuid, tenant: Uuid, now: int)
    returns (es': seq<Event>, w': World)
    requires Runs(w0, es, w) && t !in w.s.txs && t != NO_ID && tenant != NO_ID
    ensures es' == es + [Begin(t, tenant, now)] && w' == BegunWorld(w, t, tenant, now) && Runs(w0, es', w')
  {
    es', w' := OneMore(w0, es, w, Begin(t, tenant, now));
  }

  lemma Saves(w0: World, es: seq<Event>, w: World, t: Uuid, id: Uuid, v: Entity)
    returns (es': seq<Event>, w': World)
    requires Runs(w0, es, w) && Open(w.s, t)
    ensures es' == es + [Save(t, id, v)] && Runs(w0, es', w')
    ensures w' == w.(s := w.s.(txs := w.s.txs[t := SaveIn(w.s.txs[t], id, v)], spare := w'.s.spare))
  {
    es', w' := OneMore(w0, es, w, Save(t, id, v));
  }

  lemma Swaps(w0: World, es: seq<Event>, w: World, t: Uuid, id: Uuid, v: Entity, expected: Uuid)
    returns (es': seq<Event>, w': World)
    requires Runs(w0, es, w) && Open(w.s, t) && w.s.holder.Free?
    requires CasAccepts(w.s.txs[t], TxRows(w.s, t, id), id, expected)
    ensures es' == es + [CompareAndSave(t, id, v, expected)] && Runs(w0, es', w')
    ensures w' == w.(s := w.s.(txs := w.s.txs[t := SaveIn(w.s.txs[t], id, v)], spare := w'.s.spare))
  {
    es', w' := OneMore(w0, es, w, CompareAndSave(t, id, v, expected));
  }

  lemma Works(w0: World, es: seq<Event>, w: World, e: Event) returns (es': seq<Event>, w': World)
    requires Runs(w0, es, w) && TxWork(e) && CanWork(w.s, e)
    ensures es' == es + [e] && w' == w.(s := AfterWork(w.s, e)) && Runs(w0, es', w')
  {
    es', w' := OneMore(w0, es, w, e);
  }

  lemma Marks(w0: World, es: seq<Event>, w: World, t: Uuid) returns (es': seq<Event>, w': World)
    requires Runs(w0, es, w) && t in w.s.active && t in w.s.txs && t !in w.s.committing
    ensures es' == es + [CommitMark(t, w.s.txs[t].tenant)] && Runs(w0, es', w')
    ensures w' == w.(s := w.s.(committing := w.s.committing + {t}, marked := w.s.marked + {t}))
  {
    es', w' := OneMore(w0, es, w, CommitMark(t, w.s.txs[t].tenant));
  }

  lemma Passes(w0: World, es: seq<Event>, w: World, t: Uuid) returns (es': seq<Event>, w': World)
    requires Runs(w0, es, w) && t in w.s.marked && t in w.s.txs && w.s.holder.Free?
    requires !Conflicts(w.s.log, Baseline(w.s, t), w.s.txs[t])
    ensures es' == es + [CommitCheck(t)] && w' == w.(s := Passed(w.s, t)) && Runs(w0, es', w')
  {
    es', w' := OneMore(w0, es, w, CommitCheck(t));
  }

  lemma Stamps(w0: World, es: seq<Event>, w: World, t: Uuid, now: int) returns (es': seq<Event>, w': World)
    requires Runs(w0, es, w) && w.s.holder == Checked(t)
    ensures es' == es + [CommitStamp(t, now)] && Runs(w0, es', w')
    ensures w' == w.(s := StampTaken(w.s, t, NextStamp(w.s.floor, now)))
  {
    es', w' := OneMore(w0, es, w, CommitStamp(t, now));
  }

  lemma Records(w0: World, es: seq<Event>, w: World, t: Uuid) returns (es': seq<Event>, w': World)
    requires Runs(w0, es, w) && Recording(w.s, t)
    ensures es' == es + [CommitRecord(t)] && w' == w.(s := Recorded(w.s, t)) && Runs(w0, es', w')
  {
    es', w' := OneMore(w0, es, w, CommitRecord(t));
  }

  lemma Undoes(w0: World, es: seq<Event>, w: World, t: Uuid) returns (es': seq<Event>, w': World)
    requires Runs(w0, es, w) && t in w.s.txs && (w.s.holder.Free? || w.s.holder.tx != t)
    ensures es' == es + [Rollback(t)] && w' == w.(s := Undone(w.s, t)) && Runs(w0, es', w')
  {
    es', w' := OneMore(w0, es, w, Rollback(t));
  }

  lemma WritesDirectly(w0: World, es: seq<Event>, w: World, k: Key, v: Entity, now: int)
    returns (es': seq<Event>, w': World)
    requires Runs(w0, es, w) && w.s.holder.Free?
    ensures es' == es + [DirectSave(k, v, now)] && Runs(w0, es', w')
    ensures w' == DirectWorld(w, k, SavedRow(RowsOf(w.s.rows, k), v, v.txId, NextStamp(w.s.floor, now)))
  {
    es', w' := OneMore(w0, es, w, DirectSave(k, v, now));
  }

  lemma DeletesDirectly(w0: World, es: seq<Event>, w: World, k: Key, now: int)
    returns (es': seq<Event>, w': World)
    requires Runs(w0, es, w) && w.s.holder.Free? && Latest(RowsOf(w.s.rows, k)).Some?
    ensures es' == es + [DirectDelete(k, now)] && Runs(w0, es', w')
    ensures w' == DirectWorld(w, k, Tombstone(RowsOf(w.s.rows, k), NO_ID, NextStamp(w.s.floor, now)))
  {
    es', w' := OneMore(w0, es, w, DirectDelete(k, now));
  }

  // --- version numbers ---------------------------------------------------

  ghost predicate AllNumbered(rows: Rows) {
    forall k :: Numbered(RowsOf(rows, k))
  }

  lemma StepKeepsNumbered(s: State, e: Event)
    requires Enabled(s, e) && AllNumbered(s.rows)
    ensures AllNumbered(Next(s, e).rows)
  {
    forall k ensures Numbered(RowsOf(Next(s, e).rows, k)) {
      var vs := RowsOf(s.rows, k);
      if e.CommitRecord? {
        FlushKeepsNumbered(s.txs[e.t], vs, k.id, s.holder.stamp);
      } else if (e.DirectSave? || e.DirectDelete?) && e.k == k {
        var stamp := NextStamp(s.floor, e.now);
        NumberedAppend(vs, if e.DirectSave? then SavedRow(vs, e.e, e.e.txId, stamp)
                           else Tombstone(vs, NO_ID, stamp));
      }
    }
  }

  lemma FlushKeepsNumbered(tx: Tx, vs: seq<Row>, id: Uuid, stamp: int)
    requires Numbered(vs)
    ensures Numbered(FlushedRows(tx, vs, id, stamp))
  {
    if id in tx.buffer {
      NumberedSaves(vs, Superseded(tx, id) + [tx.buffer[id]], tx.id, stamp);
    } else if id in tx.deletes {
      NumberedAppend(vs, Row(None, LastLiveVersion(vs) + 1, tx.id, stamp));
    }
  }

  lemma {:induction false} RunKeepsNumbered(w: World, es: seq<Event>, w': World)
    requires Runs(w, es, w') && AllNumbered(w.s.rows)
    ensures AllNumbered(w'.s.rows)
    decreases |es|
  {
    if es != [] {
      StepKeepsNumbered(w.s, es[0]);
      RunKeepsNumbered(Step(w, es[0]), es[1..], w');
    }
  }

  /** In every run, the version numbers of an entity never go down, and two of its rows
      share a number exactly when only tombstones lie from the first up to the second. */
  lemma NumbersRepeatExactlyWhen(es: seq<Event>, w: World, k: Key, i: nat, j: nat)
    requires Runs(START, es, w) && i < j < |RowsOf(w.s.rows, k)|
    ensures
      var vs := RowsOf(w.s.rows, k);
      && 1 <= vs[i].version <= vs[j].version
      && (vs[i].version == vs[j].version <==> forall m :: i <= m < j ==> vs[m].entity.None?)
  {
    RunKeepsNumbered(START, es, w);
    VersionsRepeatOnlyAcrossTombstones(RowsOf(w.s.rows, k), i, j);
  }

  // --- snapshot isolation ------------------------------------------------

  /** Committed rows, counting those a stamped commit is about to publish. No
      reader can look while they differ from `rows`. */
  function Pending(s: State): Rows {
    if s.holder.Stamped? && s.holder.tx in s.txs
    then Flush(s.rows, s.txs[s.holder.tx], s.holder.stamp)
    else s.rows
  }

  /** No event of anyone changes what `t` sees at its snapshot. */
  lemma StepKeepsSnapshot(s: State, e: Event, t: Uuid, k: Key)
    requires TxsOk(s) && Enabled(s, e) && t in s.active
    ensures t in Next(s, e).txs && Next(s, e).txs[t].snapshot == s.txs[t].snapshot
    ensures SnapshotAt(RowsOf(Pending(Next(s, e)), k), s.txs[t].snapshot) ==
            SnapshotAt(RowsOf(Pending(s), k), s.txs[t].snapshot)
  {
    if e.DirectSave? {
      DirectKeepsSnapshot(s, e.k, SavedRow(RowsOf(s.rows, e.k), e.e, e.e.txId, NextStamp(s.floor, e.now)), t, k);
    } else if e.DirectDelete? {
      DirectKeepsSnapshot(s, e.k, Tombstone(RowsOf(s.rows, e.k), NO_ID, NextStamp(s.floor, e.now)), t, k);
    } else if e.CommitStamp? {
      StampKeepsSnapshot(s, e.t, NextStamp(s.floor, e.now), t, k);
    } else {
      SamePending(s, e);
      SnapshotIsFixed(s, e, t);
    }
  }

  lemma DirectKeepsSnapshot(s: State, x: Key, r: Row, t: Uuid, k: Key)
    requires TxsOk(s) && s.holder.Free? && t in s.active && r.stamp > s.floor
    ensures
      var s' := WrittenDirectly(s, x, r);
      SnapshotAt(RowsOf(Pending(s'), k), s.txs[t].snapshot) == SnapshotAt(RowsOf(Pending(s), k), s.txs[t].snapshot)
  {
    LaterRowsInvisible(RowsOf(s.rows, k), RowsOf(WrittenDirectly(s, x, r).rows, k), s.txs[t].snapshot);
  }

  lemma StampKeepsSnapshot(s: State, x: Uuid, stamp: int, t: Uuid, k: Key)
    requires TxsOk(s) && s.holder == Checked(x) && t in s.active && stamp > s.floor
    ensures
      var s' := StampTaken(s, x, stamp);
      SnapshotAt(RowsOf(Pending(s'), k), s.txs[t].snapshot) == SnapshotAt(RowsOf(Pending(s), k), s.txs[t].snapshot)
  {
    FlushExtends(s.rows, s.txs[x], stamp, k);
    LaterRowsInvisible(RowsOf(s.rows, k), RowsOf(Pending(StampTaken(s, x, stamp)), k), s.txs[t].snapshot);
  }

  lemma SnapshotIsFixed(s: State, e: Event, t: Uuid)
    requires Enabled(s, e) && t in s.txs
    ensures t in Next(s, e).txs && Next(s, e).txs[t].snapshot == s.txs[t].snapshot
    ensures Next(s, e).txs[t].tenant == s.txs[t].tenant
  {
  }

  lemma SamePending(s: State, e: Event)
    requires Enabled(s, e) && !e.DirectSave? && !e.DirectDelete? && !e.CommitStamp?
    requires s.holder.Stamped? ==> s.holder.tx in s.txs
    ensures Pending(Next(s, e)) == Pending(s)
  {
    if s.holder.Stamped? && !e.CommitRecord? {
      assert Next(s, e).holder == s.holder && Next(s, e).rows == s.rows;
      assert s.holder.tx in Next(s, e).txs && Next(s, e).txs[s.holder.tx] == s.txs[s.holder.tx];
    }
  }

  /** A transaction that has left the table never comes back. */
  lemma {:induction false} GoneStaysGone(w: World, es: seq<Event>, w': World, t: Uuid)
    requires Runs(w, es, w') && t in w.s.txs && t !in w.s.active
    ensures t in w'.s.txs && t !in w'.s.active
    decreases |es|
  {
    if es != [] {
      GoneStaysGone(Step(w, es[0]), es[1..], w', t);
    }
  }

  /** Repeatable reads: in every run during which `t` stays open, what it sees
      of committed state never changes. */
  lemma {:induction false} SnapshotIsStable(w: World, es: seq<Event>, w': World, t: Uuid, k: Key)
    requires Inv(w) && Runs(w, es, w') && t in w.s.active && t in w'.s.active
    ensures Inv(w') && w'.s.txs[t].snapshot == w.s.txs[t].snapshot
    ensures SnapshotAt(RowsOf(Pending(w'.s), k), w.s.txs[t].snapshot) ==
            SnapshotAt(RowsOf(Pending(w.s), k), w.s.txs[t].snapshot)
    decreases |es|
  {
    if es != [] {
      StepKeepsInv(w, es[0]);
      StepKeepsSnapshot(w.s, es[0], t, k);
      if t !in Step(w, es[0]).s.active {
        GoneStaysGone(Step(w, es[0]), es[1..], w', t);
      }
      SnapshotIsStable(Step(w, es[0]), es[1..], w', t, k);
    }
  }

  // --- first committer wins ----------------------------------------------

  /** A commit that passes its conflict check read and wrote only entities
      nobody has committed to since its snapshot, except those that writes
      outside any transaction touched, which the log does not see. */
  lemma PassedCheckIsFresh(w: World, t: Uuid, id: Uuid)
    requires Inv(w) && t in w.s.active
    requires !Conflicts(w.s.log, Baseline(w.s, t), w.s.txs[t])
    requires id in w.s.txs[t].readSet || id in w.s.txs[t].writeSet
    ensures AllAtMost(TxRows(w.s, t, id), w.s.txs[t].snapshot) <==> Key(w.s.txs[t].tenant, id) !in w.dirtied[t]
  {
    var k := Key(w.s.txs[t].tenant, id);
    assert Covered(w, t, k);
    assert forall i :: 0 <= i < |w.s.log| ==> !Guards(w.s, w.s.log[i], t, k);
  }

  predicate Uses(tx: Tx, id: Uuid) { id in tx.readSet || id in tx.writeSet }

  /** Some entity `t` read or wrote has a committed row past its snapshot. */
  ghost predicate Overtaken(s: State, t: Uuid)
    requires t in s.txs
  {
    exists id :: Uses(s.txs[t], id) && !AllAtMost(TxRows(s, t, id), s.txs[t].snapshot)
  }

  /** A log entry on which the check refuses `t`. */
  predicate Refuses(s: State, t: Uuid, c: Committed)
    requires t in s.txs
  {
    c.seqNo > Baseline(s, t) && exists id :: id in c.writeSet && Uses(s.txs[t], id)
  }

  /** One that has cause: of `t`'s own tenant, and stamped past its snapshot. */
  predicate HasCause(s: State, t: Uuid, c: Committed)
    requires t in s.txs
  {
    OfTenant(s, c, s.txs[t].tenant) && c.stamp > s.txs[t].snapshot
  }

  lemma CauseIsARow(w: World, t: Uuid, c: Committed)
    requires Inv(w) && t in w.s.active && c in w.s.log && Refuses(w.s, t, c) && HasCause(w.s, t, c)
    ensures Overtaken(w.s, t)
  {
    var i :| 0 <= i < |w.s.log| && w.s.log[i] == c;
    assert Backed(w.s, w.s.log[i]);
    var id :| id in c.writeSet && Uses(w.s.txs[t], id);
    assert RowAt(w.s.rows, Key(w.s.txs[t].tenant, id), c.stamp);
  }

  /** A transaction really was overtaken exactly when some entry that refuses it has
      cause, or a direct write touched an entity it uses. An entry without cause is
      of another tenant, or `t` began between that commit's stamp and its record. */
  lemma ConflictIsRealExactlyWhen(w: World, t: Uuid)
    requires Inv(w) && t in w.s.active
    ensures Conflicts(w.s.log, Baseline(w.s, t), w.s.txs[t]) <==> exists c :: c in w.s.log && Refuses(w.s, t, c)
    ensures Overtaken(w.s, t) <==>
      || (exists c :: c in w.s.log && Refuses(w.s, t, c) && HasCause(w.s, t, c))
      || (exists id :: Uses(w.s.txs[t], id) && Key(w.s.txs[t].tenant, id) in w.dirtied[t])
    ensures forall c :: c in w.s.log && Refuses(w.s, t, c) && !HasCause(w.s, t, c) ==>
              !OfTenant(w.s, c, w.s.txs[t].tenant) || t in w.overlapped
  {
    ConflictIsARefusal(w.s, t);
    if Overtaken(w.s, t) {
      OvertakenHasCause(w, t);
    }
    if c :| c in w.s.log && Refuses(w.s, t, c) && HasCause(w.s, t, c) {
      CauseIsARow(w, t, c);
    }
    forall c | c in w.s.log && Refuses(w.s, t, c) && t !in w.overlapped ensures c.stamp > w.s.txs[t].snapshot {
      var i :| 0 <= i < |w.s.log| && w.s.log[i] == c;
      assert StampedLater(w.s, t, w.s.log[i]);
    }
  }

  lemma ConflictIsARefusal(s: State, t: Uuid)
    requires t in s.txs
    ensures Conflicts(s.log, Baseline(s, t), s.txs[t]) <==> exists c :: c in s.log && Refuses(s, t, c)
  {
    var tx := s.txs[t];
    if Conflicts(s.log, Baseline(s, t), tx) {
      var i, id :| 0 <= i < |s.log| && s.log[i].seqNo > Baseline(s, t) && id in s.log[i].writeSet &&
                   (id in tx.readSet || id in tx.writeSet);
      assert Uses(tx, id) && s.log[i] in s.log;
      assert Refuses(s, t, s.log[i]);
    }
    if c :| c in s.log && Refuses(s, t, c) {
      var i :| 0 <= i < |s.log| && s.log[i] == c;
      var id :| id in c.writeSet && Uses(tx, id);
      assert s.log[i].seqNo > Baseline(s, t) && id in s.log[i].writeSet && (id in tx.readSet || id in tx.writeSet);
    }
  }

  lemma OvertakenHasCause(w: World, t: Uuid)
    requires Inv(w) && t in w.s.active && Overtaken(w.s, t)
    ensures
      || (exists c :: c in w.s.log && Refuses(w.s, t, c) && HasCause(w.s, t, c))
      || (exists id :: Uses(w.s.txs[t], id) && Key(w.s.txs[t].tenant, id) in w.dirtied[t])
  {
    var tx := w.s.txs[t];
    var id :| Uses(tx, id) && !AllAtMost(TxRows(w.s, t, id), tx.snapshot);
    assert Covered(w, t, Key(tx.tenant, id));
    if i :| 0 <= i < |w.s.log| && Guards(w.s, w.s.log[i], t, Key(tx.tenant, id)) {
      assert w.s.log[i] in w.s.log && Refuses(w.s, t, w.s.log[i]);
    }
  }

  // --- atomic visibility -------------------------------------------------

  /** Committed state changes only when a commit is recorded, which publishes
      exactly that transaction's buffered values and tombstones, all at once and
      in its own tenant, or by a direct write of one key. */
  lemma VisibilityIsAtomic(s: State, e: Event, k: Key)
    requires TxsOk(s) && Enabled(s, e)
    ensures e.CommitRecord? && k.tenant == s.txs[e.t].tenant ==>
      && (k.id in s.txs[e.t].buffer ==> Latest(RowsOf(Next(s, e).rows, k)) == Some(s.txs[e.t].buffer[k.id]))
      && (k.id in s.txs[e.t].deletes ==> Latest(RowsOf(Next(s, e).rows, k)) == None)
      && (k.id !in s.txs[e.t].writeSet ==> RowsOf(Next(s, e).rows, k) == RowsOf(s.rows, k))
    ensures e.CommitRecord? && k.tenant != s.txs[e.t].tenant ==>
      RowsOf(Next(s, e).rows, k) == RowsOf(s.rows, k)
    ensures !e.CommitRecord? && !((e.DirectSave? || e.DirectDelete?) && e.k == k) ==>
      RowsOf(Next(s, e).rows, k) == RowsOf(s.rows, k)
  {
    if e.CommitRecord? {
      FlushPublishes(s.rows, s.txs[e.t], s.holder.stamp, k);
    }
  }

  lemma FlushPublishes(rows: Rows, tx: Tx, stamp: int, k: Key)
    requires WorkOk(tx.id, tx.buffer, tx.writeSet, tx.deletes)
    ensures k.tenant == tx.tenant && k.id in tx.buffer ==>
      Latest(RowsOf(Flush(rows, tx, stamp), k)) == Some(tx.buffer[k.id])
    ensures k.tenant == tx.tenant && k.id in tx.deletes ==> Latest(RowsOf(Flush(rows, tx, stamp), k)) == None
    ensures k.tenant != tx.tenant || k.id !in tx.writeSet ==> RowsOf(Flush(rows, tx, stamp), k) == RowsOf(rows, k)
  {
    if k.tenant == tx.tenant && k.id in tx.buffer {
      AppendSavesExtends(RowsOf(rows, k), Superseded(tx, k.id) + [tx.buffer[k.id]], tx.id, stamp);
    }
  }

  /** Nothing of `t` is left anywhere that could still publish it. */
  predicate Finished(s: State, t: Uuid) {
    t in s.txs && t !in s.active && t !in s.marked && (s.holder.Free? || s.holder.tx != t)
  }

  lemma {:induction false} FinishedForGood(w: World, es: seq<Event>, w': World, t: Uuid)
    requires Runs(w, es, w') && Finished(w.s, t)
    ensures Finished(w'.s, t)
    ensures forall i :: 0 <= i < |es| ==> es[i] != CommitRecord(t)
    decreases |es|
  {
    if es != [] {
      FinishedForGood(Step(w, es[0]), es[1..], w', t);
    }
  }

  /** Everything `tx` buffered is the newest committed value, and what it deleted is gone. */
  ghost predicate Published(rows: Rows, tx: Tx) {
    forall k: Key :: k.tenant == tx.tenant && (k.id in tx.buffer || k.id in tx.deletes) ==>
      Latest(RowsOf(rows, k)) == if k.id in tx.buffer then Some(tx.buffer[k.id]) else None
  }

  /** The waiting Commit of `t`, without a conflict, can run on to its end and publish. */
  lemma WaitingCommitPublishes(w0: World, es: seq<Event>, w: World, t: Uuid, now: int)
    returns (es': seq<Event>, w': World)
    requires Runs(w0, es, w) && w.s.holder.Free? && t in w.s.marked && t in w.s.txs && w.s.active <= w.s.txs.Keys
    requires WorkOk(w.s.txs[t].id, w.s.txs[t].buffer, w.s.txs[t].writeSet, w.s.txs[t].deletes)
    requires !Conflicts(w.s.log, Baseline(w.s, t), w.s.txs[t])
    ensures Runs(w0, es', w') && es' == es + [CommitCheck(t), CommitStamp(t, now), CommitRecord(t)]
    ensures Published(w'.s.rows, w.s.txs[t]) && t in w'.s.txs && w'.s.txs[t] == Closed(w.s.txs[t])
  {
    es', w' := Passes(w0, es, w, t);
    es', w' := Stamps(w0, es', w', t, now);
    RecordPublishes(w'.s, t);
    es', w' := Records(w0, es', w', t);
  }

  lemma RecordPublishes(s: State, t: Uuid)
    requires Recording(s, t) && WorkOk(s.txs[t].id, s.txs[t].buffer, s.txs[t].writeSet, s.txs[t].deletes)
    ensures Published(Recorded(s, t).rows, s.txs[t])
  {
    var tx := s.txs[t];
    forall k: Key | k.tenant == tx.tenant && (k.id in tx.buffer || k.id in tx.deletes)
      ensures Latest(RowsOf(Recorded(s, t).rows, k)) == if k.id in tx.buffer then Some(tx.buffer[k.id]) else None
    {
      FlushPublishes(s.rows, tx, s.holder.stamp, k);
    }
  }
}
