/** Concrete runs showing that the exceptions the isolation theorems name do
    happen. */
module Witnesses {
  import opened Json
  import opened Versions
  import opened Transactions
  import opened TxSystem
  import opened Isolation
  import opened Rollbacks

  const TENANT: Uuid := 7
  const ORDER: Uuid := 5
  const FIRST := Entity("order", Str("first"), NO_ID)
  const SECOND := Entity("order", Str("second"), NO_ID)
  const THIRD := Entity("order", Str("third"), NO_ID)

  /** A rolled-back transaction whose commit was already waiting is published. */
  lemma RolledBackYetVisible() returns (es: seq<Event>, w: World)
    ensures Runs(START, es, w) && Rollback(1) in es
    ensures 1 in w.s.txs && w.s.txs[1].rolledBack
    ensures Latest(RowsOf(w.s.rows, Key(TENANT, ORDER))) == Some(FIRST.(txId := 1))
  {
    es, w := [], START;
    es, w := Begins(START, es, w, 1, TENANT, 10);
    es, w := Saves(START, es, w, 1, ORDER, FIRST);
    es, w := Marks(START, es, w, 1);
    es, w := Undoes(START, es, w, 1);
    assert es[3] == Rollback(1);
    var tx := w.s.txs[1];
    assert tx.buffer == map[ORDER := FIRST.(txId := 1)] && tx.writeSet == {ORDER} && tx.deletes == {};
    es, w := WaitingCommitPublishes(START, es, w, 1, 20);
    assert Key(TENANT, ORDER).id in tx.buffer;
  }

  /** A write outside any transaction, between a transaction's read and its
      commit, is overwritten without a conflict. */
  lemma DirectWriteLost() returns (es: seq<Event>, before: World, w: World)
    ensures Runs(START, es, w) && 1 in before.s.txs
    ensures TxView(before.s.txs[1], TxRows(before.s, 1, ORDER), ORDER) == Some(FIRST)
    ensures Latest(RowsOf(before.s.rows, Key(TENANT, ORDER))) == Some(SECOND)
    ensures Latest(RowsOf(w.s.rows, Key(TENANT, ORDER))) == Some(THIRD.(txId := 1))
  {
    es, before := ReadThenDirectWrite();
    w := before;
    es, w := Saves(START, es, w, 1, ORDER, THIRD);
    es, w := Marks(START, es, w, 1);
    var tx := w.s.txs[1];
    assert tx.buffer == map[ORDER := THIRD.(txId := 1)] && tx.writeSet == {ORDER} && tx.deletes == {};
    es, w := WaitingCommitPublishes(START, es, w, 1, 30);
    assert Key(TENANT, ORDER).id in tx.buffer;
  }

  lemma ReadThenDirectWrite() returns (es: seq<Event>, w: World)
    ensures Runs(START, es, w) && w.s.holder.Free? && w.s.log == [] && w.s.active == {1} && w.s.committing == {}
    ensures 1 in w.s.txs && w.s.txs[1] == NewTx(1, TENANT, 10).(readSet := {ORDER})
    ensures TxView(w.s.txs[1], TxRows(w.s, 1, ORDER), ORDER) == Some(FIRST)
    ensures Latest(RowsOf(w.s.rows, Key(TENANT, ORDER))) == Some(SECOND)
  {
    var k := Key(TENANT, ORDER);
    es, w := [], START;
    es, w := WritesDirectly(START, es, w, k, FIRST, 5);
    var r1 := RowsOf(w.s.rows, k);
    assert |r1| == 1 && r1[0].entity == Some(FIRST) && r1[0].stamp == 5;
    es, w := Begins(START, es, w, 1, TENANT, 10);
    es, w := OneMore(START, es, w, Get(1, ORDER));
    es, w := WritesDirectly(START, es, w, k, SECOND, 20);
    var r2 := RowsOf(w.s.rows, k);
    assert r2[..1] == r1 && |r2| == 2 && r2[1].entity == Some(SECOND) && r2[1].stamp == 20;
    assert SnapshotAt(r1, 10) == Some(FIRST);
  }

  /** A transaction begun between another commit's stamp and its log record, on a
      clock that has not moved, sees that commit's write and is still reported as
      conflicting with it. */
  lemma ConflictWithWhatItSaw() returns (es: seq<Event>, w: World)
    ensures Runs(START, es, w) && 2 in w.s.active && 2 in w.s.txs && 2 in w.overlapped
    ensures TxView(w.s.txs[2], TxRows(w.s, 2, ORDER), ORDER) == Some(FIRST.(txId := 1))
    ensures AllAtMost(TxRows(w.s, 2, ORDER), w.s.txs[2].snapshot)
    ensures Conflicts(w.s.log, Baseline(w.s, 2), w.s.txs[2])
  {
    es, w := RecordedAfterBegin();
    es, w := OneMore(START, es, w, Get(2, ORDER));
    var i :| 0 <= i < |w.s.log| && w.s.log[i] == Committed(1, 20, 1, {ORDER});
    assert w.s.log[i].seqNo > Baseline(w.s, 2) && ORDER in w.s.log[i].writeSet && ORDER in w.s.txs[2].readSet;
  }

  lemma RecordedAfterBegin() returns (es: seq<Event>, w: World)
    ensures Runs(START, es, w) && w.s.holder == Free && 2 in w.s.active && 2 in w.s.txs && 2 in w.overlapped
    ensures w.s.txs[2] == NewTx(2, TENANT, 20) && Baseline(w.s, 2) == 0
    ensures Committed(1, 20, 1, {ORDER}) in w.s.log
    ensures SnapshotAt(TxRows(w.s, 2, ORDER), 20) == Some(FIRST.(txId := 1)) && AllAtMost(TxRows(w.s, 2, ORDER), 20)
  {
    es, w := BegunDuringCommit();
    RecordOutcome(w.s);
    es, w := Records(START, es, w, 1);
    assert SnapshotAt([SavedRow([], FIRST, 1, 20)], 20) == Some(FIRST.(txId := 1));
  }

  /** What recording the commit of transaction 1 leaves in that state. */
  lemma RecordOutcome(s: State)
    requires s.holder == Stamped(1, 20) && s.rows == map[] && s.log == [] && s.commitSeq == 0 && s.active == {1, 2}
    requires s.txs == map[1 := SaveIn(NewTx(1, TENANT, 10), ORDER, FIRST), 2 := NewTx(2, TENANT, 20)]
    ensures RowsOf(Recorded(s, 1).rows, Key(TENANT, ORDER)) == [SavedRow([], FIRST, 1, 20)]
    ensures Committed(1, 20, 1, {ORDER}) in Recorded(s, 1).log
  {
    OneRow();
    var s', c := Recorded(s, 1), Committed(1, 20, 1, {ORDER});
    var s1 := Drop(s, 1).(rows := s'.rows, txs := s'.txs, commitSeq := 1, holder := Free);
    assert s1.active == {2} && s.txs[1].writeSet == {ORDER};
    assert Snapshots(s1) == {20};
    assert s.log + [c] == [c];
    PruneKeeps([c], {20}, c);
  }

  lemma OneRow()
    ensures RowsOf(Flush(map[], SaveIn(NewTx(1, TENANT, 10), ORDER, FIRST), 20), Key(TENANT, ORDER)) ==
            [SavedRow([], FIRST, 1, 20)]
  {
    var tx := SaveIn(NewTx(1, TENANT, 10), ORDER, FIRST);
    assert Superseded(tx, ORDER) + [tx.buffer[ORDER]] == [tx.buffer[ORDER]];
    AppendSavesExtends([], [tx.buffer[ORDER]], 1, 20);
    assert AppendSaves([], [tx.buffer[ORDER]], 1, 20) == [SavedRow([], tx.buffer[ORDER], 1, 20)];
  }

  lemma BegunDuringCommit() returns (es: seq<Event>, w: World)
    ensures Runs(START, es, w) && w.s.holder == Stamped(1, 20) && w.s.rows == map[] && w.s.log == []
    ensures w.s.commitSeq == 0 && w.s.active == {1, 2} && w.s.baseline == map[1 := 0, 2 := 0] && w.overlapped == {2}
    ensures w.s.txs == map[1 := SaveIn(NewTx(1, TENANT, 10), ORDER, FIRST), 2 := NewTx(2, TENANT, 20)]
  {
    es, w := [], START;
    es, w := Begins(START, es, w, 1, TENANT, 10);
    es, w := Saves(START, es, w, 1, ORDER, FIRST);
    es, w := Marks(START, es, w, 1);
    assert w.s.txs == map[1 := SaveIn(NewTx(1, TENANT, 10), ORDER, FIRST)] && w.s.log == [];
    es, w := Passes(START, es, w, 1);
    es, w := Stamps(START, es, w, 1, 20);
    es, w := Begins(START, es, w, 2, TENANT, 10);
  }

  // --- a commit that overtakes an open transaction -------------------------

  const OTHER_TENANT: Uuid := 8

  /** Transaction 1 saved the order; transaction 2 of `tenant` saved the same id and
      waits to commit. */
  lemma BothSaved(tenant: Uuid) returns (es: seq<Event>, w: World)
    requires tenant != NO_ID
    ensures Runs(START, es, w) && w.s.rows == map[] && w.s.log == [] && w.s.commitSeq == 0 && w.s.floor == 12
    ensures w.s.holder.Free? && w.s.marked == {2} && w.s.active == {1, 2} && w.s.baseline == map[1 := 0, 2 := 0]
    ensures w.s.committing == {2} && w.overlapped == {} && w.dirtied == map[1 := {}, 2 := {}]
    ensures w.s.txs == map[1 := SaveIn(NewTx(1, TENANT, 10), ORDER, FIRST),
                           2 := SaveIn(NewTx(2, tenant, 12), ORDER, SECOND)]
  {
    es, w := [], START;
    es, w := Begins(START, es, w, 1, TENANT, 10);
    es, w := Saves(START, es, w, 1, ORDER, FIRST);
    es, w := Begins(START, es, w, 2, tenant, 12);
    es, w := Saves(START, es, w, 2, ORDER, SECOND);
    es, w := Marks(START, es, w, 2);
  }

  /** Transaction 2 has committed, past the snapshot of transaction 1. */
  lemma Outrun(tenant: Uuid) returns (es: seq<Event>, w: World)
    requires tenant != NO_ID
    ensures Runs(START, es, w) && w.s.holder.Free? && w.s.active == {1} && w.s.committing == {} && w.overlapped == {}
    ensures 1 in w.s.txs && w.s.txs[1] == SaveIn(NewTx(1, TENANT, 10), ORDER, FIRST) && Baseline(w.s, 1) == 0
    ensures Committed(2, 20, 1, {ORDER}) in w.s.log
    ensures tenant != TENANT ==> forall id :: RowsOf(w.s.rows, Key(TENANT, id)) == []
  {
    es, w := BothSaved(tenant);
    assert !Conflicts(w.s.log, Baseline(w.s, 2), w.s.txs[2]);
    es, w := Passes(START, es, w, 2);
    es, w := Stamps(START, es, w, 2, 20);
    OutrunRecord(w.s, tenant);
    OutrunLog(w.s, tenant);
    es, w := Records(START, es, w, 2);
  }

  lemma OutrunRecord(s: State, tenant: Uuid)
    requires s.holder == Stamped(2, 20) && s.rows == map[] && s.log == [] && s.commitSeq == 0 && s.active == {1, 2}
    requires s.baseline == map[1 := 0, 2 := 0] && s.committing == {2}
    requires s.txs == map[1 := SaveIn(NewTx(1, TENANT, 10), ORDER, FIRST),
                          2 := SaveIn(NewTx(2, tenant, 12), ORDER, SECOND)]
    ensures Enabled(s, CommitRecord(2))
    ensures
      var s' := Next(s, CommitRecord(2));
      && s'.active == {1} && s'.committing == {} && s'.txs[1] == s.txs[1] && Baseline(s', 1) == 0
      && (tenant != TENANT ==> forall id :: RowsOf(s'.rows, Key(TENANT, id)) == [])
  {
  }

  lemma OutrunLog(s: State, tenant: Uuid)
    requires s.holder == Stamped(2, 20) && s.log == [] && s.commitSeq == 0 && s.active == {1, 2}
    requires s.txs == map[1 := SaveIn(NewTx(1, TENANT, 10), ORDER, FIRST),
                          2 := SaveIn(NewTx(2, tenant, 12), ORDER, SECOND)]
    ensures Enabled(s, CommitRecord(2)) && Committed(2, 20, 1, {ORDER}) in Next(s, CommitRecord(2)).log
  {
    var s', c := Next(s, CommitRecord(2)), Committed(2, 20, 1, {ORDER});
    var s1 := Drop(s, 2).(rows := s'.rows, txs := s'.txs, commitSeq := 1, holder := Free);
    assert s1.active == {1} && s.txs[2].writeSet == {ORDER};
    assert Snapshots(s1) == {10};
    assert s.log + [c] == [c];
    assert s'.log == Prune([c], Snapshots(s1));
    PruneKeeps([c], {10}, c);
  }

  /** A transaction is refused although nothing of its own tenant changed: the log
      remembers ids, not tenants. */
  lemma ConflictAcrossTenants() returns (es: seq<Event>, w: World)
    ensures Runs(START, es, w) && 1 in w.s.active && 1 in w.s.txs && 1 !in w.overlapped
    ensures Conflicts(w.s.log, Baseline(w.s, 1), w.s.txs[1])
    ensures forall id :: TxRows(w.s, 1, id) == []
  {
    es, w := Outrun(OTHER_TENANT);
    OutrunConflicts(w.s);
  }

  lemma OutrunConflicts(s: State)
    requires 1 in s.txs && s.txs[1] == SaveIn(NewTx(1, TENANT, 10), ORDER, FIRST) && Baseline(s, 1) == 0
    requires Committed(2, 20, 1, {ORDER}) in s.log
    ensures Conflicts(s.log, Baseline(s, 1), s.txs[1])
  {
    var i :| 0 <= i < |s.log| && s.log[i] == Committed(2, 20, 1, {ORDER});
    assert s.log[i].seqNo > 0 && ORDER in s.log[i].writeSet && ORDER in s.txs[1].writeSet;
  }

  /** A waiting commit that would conflict, rolled back, is published all the same once
      the conflicting log entry has been pruned. */
  lemma PrunedConflictIsPublished() returns (es: seq<Event>, w: World, es': seq<Event>, w': World)
    ensures Runs(START, es, w) && 1 in w.s.marked && Enabled(w.s, Rollback(1))
    ensures Conflicts(w.s.log, Baseline(w.s, 1), w.s.txs[1])
    ensures Runs(Step(w, Rollback(1)), es', w')
    ensures Latest(RowsOf(w'.s.rows, Key(TENANT, ORDER))) == Some(FIRST.(txId := 1))
  {
    es, w := Outrun(TENANT);
    es, w := Marks(START, es, w, 1);
    OutrunConflicts(w.s);
    assert Inv(START);
    RunKeepsInv(START, es, w);
    es', w' := WaitingCommitSurvives(w, 1);
    assert Key(TENANT, ORDER).id in w.s.txs[1].buffer;
  }

  // --- savepoints used out of order ----------------------------------------

  const ONCE := SaveIn(NewTx(1, TENANT, 10), ORDER, FIRST)

  function SavedThrice(tx: Tx): Tx {
    SaveIn(SaveIn(SaveIn(tx, ORDER, SECOND), ORDER, THIRD), ORDER, FIRST)
  }

  function BothTaken(): Tx {
    MakeSavepoint(SavedThrice(MakeSavepoint(ONCE, 7)), 8)
  }

  /** Save; savepoint 7; save three times; savepoint 8; back to 7; save: rolling back to 8
      then asks for three superseded values of a list that holds one, and panics. */
  lemma RollbackCanPanic() returns (es: seq<Event>, w: World)
    ensures Runs(START, es, w) && 1 in w.s.txs && 8 in w.s.txs[1].savepoints
    ensures RollbackIn(w.s.txs[1], SpareOf(w.s, 1), 8) == Panicked && Enabled(w.s, RollbackPanics(1, 8, {}))
  {
    es, w := BothSavepoints();
    BackToTheFirst(SpareOf(w.s, 1));
    es, w := BackOn(es, w, BothTaken(), 7);
    OnToTheSecond(SpareOf(w.s, 1));
    es, w := SaveOn(es, w, RollbackTo(BothTaken(), 7), SECOND);
  }

  /** Transaction 1 is open and stands at `tx`. */
  predicate At(s: State, tx: Tx) {
    Open(s, 1) && 1 in s.active && s.txs[1] == tx
  }

  lemma SaveOn(es: seq<Event>, w: World, tx: Tx, v: Entity) returns (es': seq<Event>, w': World)
    requires Runs(START, es, w) && At(w.s, tx)
    ensures Runs(START, es', w') && At(w'.s, SaveIn(tx, ORDER, v))
    ensures SpareOf(w'.s, 1) == StageSpare(tx, SpareOf(w.s, 1), ORDER)
  {
    es', w' := Works(START, es, w, Save(1, ORDER, v));
  }

  lemma MarkOn(es: seq<Event>, w: World, tx: Tx, sp: Uuid) returns (es': seq<Event>, w': World)
    requires Runs(START, es, w) && At(w.s, tx) && sp !in tx.savepoints
    ensures Runs(START, es', w') && At(w'.s, MakeSavepoint(tx, sp))
  {
    es', w' := Works(START, es, w, TakeSavepoint(1, sp));
  }

  lemma BackOn(es: seq<Event>, w: World, tx: Tx, sp: Uuid) returns (es': seq<Event>, w': World)
    requires Runs(START, es, w) && At(w.s, tx) && sp in tx.savepoints
    requires RollbackIn(tx, SpareOf(w.s, 1), sp) == Ended(RollbackTo(tx, sp))
    ensures Runs(START, es', w') && At(w'.s, RollbackTo(tx, sp))
    ensures SpareOf(w'.s, 1) == SpareAfter(tx, SpareOf(w.s, 1), tx.savepoints[sp], tx.superseded.Keys)
  {
    es', w' := Works(START, es, w, RollbackToSavepoint(1, sp));
  }

  lemma FirstSavepoint() returns (es: seq<Event>, w: World)
    ensures Runs(START, es, w) && At(w.s, MakeSavepoint(ONCE, 7))
  {
    es, w := Begins(START, [], START, 1, TENANT, 10);
    es, w := SaveOn(es, w, NewTx(1, TENANT, 10), FIRST);
    es, w := MarkOn(es, w, ONCE, 7);
  }

  lemma BothSavepoints() returns (es: seq<Event>, w: World)
    ensures Runs(START, es, w) && At(w.s, BothTaken())
  {
    es, w := FirstSavepoint();
    var tx := MakeSavepoint(ONCE, 7);
    es, w := SaveOn(es, w, tx, SECOND);
    es, w := SaveOn(es, w, SaveIn(tx, ORDER, SECOND), THIRD);
    es, w := SaveOn(es, w, SaveIn(SaveIn(tx, ORDER, SECOND), ORDER, THIRD), FIRST);
    es, w := MarkOn(es, w, SavedThrice(tx), 8);
  }

  /** The list, made since savepoint 7, is dropped, and its array with it. */
  lemma BackToTheFirst(spare: Spare)
    ensures
      var tx := BothTaken();
      && RollbackIn(tx, spare, 7) == Ended(RollbackTo(tx, 7))
      && ORDER !in SpareAfter(tx, spare, tx.savepoints[7], tx.superseded.Keys)
  {
    var tx := MakeSavepoint(ONCE, 7);
    SavepointStartsGrowth(ONCE, 7);
    WorkStaysGrown(ONCE, 7, tx, ORDER, SECOND);
    WorkStaysGrown(ONCE, 7, SaveIn(tx, ORDER, SECOND), ORDER, THIRD);
    WorkStaysGrown(ONCE, 7, SaveIn(SaveIn(tx, ORDER, SECOND), ORDER, THIRD), ORDER, FIRST);
    NestingStaysGrown(ONCE, 7, SavedThrice(tx), 8);
    LinearRollbackTruncates(ONCE, 7, BothTaken(), spare);
  }

  lemma OnToTheSecond(spare: Spare)
    requires ORDER !in spare
    ensures
      var before := RollbackTo(BothTaken(), 7);
      var tx, spare' := SaveIn(before, ORDER, SECOND), StageSpare(before, spare, ORDER);
      && 8 in tx.savepoints && RollbackIn(tx, spare', 8) == Panicked && PanicsAfter(tx, spare', 8, {})
  {
    var before := RollbackTo(BothTaken(), 7);
    var tx, spare' := SaveIn(before, ORDER, SECOND), StageSpare(before, spare, ORDER);
    assert tx.superseded[ORDER] == [FIRST.(txId := 1)];
    assert tx.savepoints[8].lens[ORDER] == 3;
    assert PastCapacity(tx, spare', tx.savepoints[8], ORDER);
  }

  // --- version numbers -----------------------------------------------------

  /** Saved, deleted and saved again: the tombstone and the new version share a number. */
  lemma NumberIsReused() returns (es: seq<Event>, w: World)
    ensures Runs(START, es, w)
    ensures
      var vs := RowsOf(w.s.rows, Key(TENANT, ORDER));
      |vs| == 3 && vs[1].entity.None? && vs[2].entity.Some? && vs[1].version == vs[2].version == 2
  {
    var k := Key(TENANT, ORDER);
    es, w := [], START;
    es, w := WritesDirectly(START, es, w, k, FIRST, 5);
    var r1 := RowsOf(w.s.rows, k);
    assert |r1| == 1 && r1[0].version == 1 && r1[0].entity == Some(FIRST);
    es, w := DeletesDirectly(START, es, w, k, 6);
    var r2 := RowsOf(w.s.rows, k);
    assert r2[..1] == r1 && |r2| == 2 && r2[1].version == 2 && r2[1].entity == None;
    es, w := WritesDirectly(START, es, w, k, SECOND, 7);
    var r3 := RowsOf(w.s.rows, k);
    assert r3[..2] == r2 && LastLiveVersion(r2) == LastLiveVersion(r1) == 1;
  }

  // --- tokens carried by direct writes -------------------------------------

  /** One compare-and-save of `k`, from begin to commit. */
  function SwapScript(t: Uuid, k: Key, v: Entity, token: Uuid): seq<Event> {
    [Begin(t, k.tenant, 0), CompareAndSave(t, k.id, v, token), CommitMark(t, k.tenant),
     CommitCheck(t), CommitStamp(t, 0), CommitRecord(t)]
  }

  predicate Quiet(s: State) {
    s.holder.Free? && s.active == {} && s.committing == {} && s.marked == {} && s.log == []
  }

  /** Only `t` is open, with its one swap done and its commit marked. */
  predicate Marked(s: State, t: Uuid) {
    s.holder.Free? && s.active == {t} && s.committing == {t} && s.marked == {t} && s.log == [] && t in s.txs
  }

  lemma SwapMarked(es: seq<Event>, w: World, t: Uuid, k: Key, v: Entity, token: Uuid)
    returns (es': seq<Event>, w': World)
    requires Runs(START, es, w) && Quiet(w.s) && t !in w.s.txs && t != NO_ID && k.tenant != NO_ID
    requires token != NO_ID && CurrentTxId(Latest(RowsOf(w.s.rows, k))) == token
    ensures Runs(START, es', w') && es' == es + SwapScript(t, k, v, token)[..3]
    ensures Marked(w'.s, t) && w'.s.txs.Keys == w.s.txs.Keys + {t}
  {
    es', w' := Begins(START, es, w, t, k.tenant, 0);
    FreshSwapIsAccepted(w'.s.txs[t], w'.s.rows, k, token);
    es', w' := Swaps(START, es', w', t, k.id, v, token);
    es', w' := Marks(START, es', w', t);
  }

  lemma FreshSwapIsAccepted(tx: Tx, rows: Rows, k: Key, token: Uuid)
    requires tx.tenant == k.tenant && tx.buffer == map[] && tx.deletes == {}
    requires token != NO_ID && CurrentTxId(Latest(RowsOf(rows, k))) == token
    ensures CasAccepts(tx, RowsOf(rows, Key(tx.tenant, k.id)), k.id, token)
  {
    assert k == Key(k.tenant, k.id);
  }

  lemma MarkedCommits(es: seq<Event>, w: World, t: Uuid) returns (es': seq<Event>, w': World)
    requires Runs(START, es, w) && Marked(w.s, t)
    ensures Runs(START, es', w') && es' == es + [CommitCheck(t), CommitStamp(t, 0), CommitRecord(t)]
    ensures Quiet(w'.s) && w'.s.txs.Keys == w.s.txs.Keys
  {
    es', w' := Passes(START, es, w, t);
    es', w' := Stamps(START, es', w', t, 0);
    RecordAlonePrunes(w'.s, t);
    es', w' := Records(START, es', w', t);
  }

  /** A write outside any transaction that carries `token`, then a swap on it. */
  lemma WriteThenSwap(es: seq<Event>, w: World, t: Uuid, k: Key, v: Entity)
    returns (es': seq<Event>, w': World)
    requires Runs(START, es, w) && Quiet(w.s) && t !in w.s.txs && t != NO_ID && k.tenant != NO_ID && v.txId != NO_ID
    ensures Runs(START, es', w') && es' == es + ([DirectSave(k, v, 0)] + SwapScript(t, k, v, v.txId))
    ensures Quiet(w'.s) && w'.s.txs.Keys == w.s.txs.Keys + {t}
  {
    es', w' := WritesDirectly(START, es, w, k, v, 0);
    es', w' := SwapMarked(es', w', t, k, v, v.txId);
    es', w' := MarkedCommits(es', w', t);
  }

  lemma TokenRun(k: Key, v: Entity) returns (w: World)
    requires k.tenant != NO_ID && v.txId != NO_ID
    ensures Runs(START, ([DirectSave(k, v, 0)] + SwapScript(1, k, v, v.txId)) +
                        ([DirectSave(k, v, 0)] + SwapScript(2, k, v, v.txId)), w)
  {
    var es;
    es, w := WriteThenSwap([], START, 1, k, v);
    assert es == [DirectSave(k, v, 0)] + SwapScript(1, k, v, v.txId);
    es, w := WriteThenSwap(es, w, 2, k, v);
  }
}
