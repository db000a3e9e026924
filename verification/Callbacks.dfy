/** The callback processors of cmd/compute-test-client/callback.go against the
    store: what a processor sees when its callbacks joined a transaction, and what
    a delete by condition does to the transaction's view. */
module Callbacks {
  import opened Json
  import opened Versions
  import opened Transactions
  import opened TxSystem
  import opened Isolation
  import opened Manager

  // --- cb-pit-committed-only ---------------------------------------------

  /** The status a read answers with. */
  function Status(r: Option<Entity>): int {
    if r.Some? then 200 else 404
  }

  /** Events of other parties that leave transaction `t` and entity `k` alone. */
  predicate Aside(s: State, e: Event, t: Uuid, k: Key) {
    match e
    case DirectSave(k', _, _) => k' != k
    case DirectDelete(k', _) => k' != k
    case CommitRecord(u) =>
      u != t && (u in s.txs && s.txs[u].tenant == k.tenant ==> k.id !in s.txs[u].buffer && k.id !in s.txs[u].deletes)
    case _ => e.t != t
  }

  ghost predicate RunsAside(s: State, es: seq<Event>, s': State, t: Uuid, k: Key)
    decreases |es|
  {
    if es == [] then s == s'
    else Enabled(s, es[0]) && Aside(s, es[0], t, k) && RunsAside(Next(s, es[0]), es[1..], s', t, k)
  }

  lemma {:induction false} AsideKeeps(s: State, es: seq<Event>, s': State, t: Uuid, k: Key)
    requires RunsAside(s, es, s', t, k)
    ensures RowsOf(s'.rows, k) == RowsOf(s.rows, k)
    ensures t in s.txs ==> t in s'.txs && s'.txs[t] == s.txs[t]
    decreases |es|
  {
    if es != [] {
      AsideStep(s, es[0], t, k);
      AsideKeeps(Next(s, es[0]), es[1..], s', t, k);
    }
  }

  /** Joined: an entity created under the token and not yet committed is found by
      the plain read and not by the point-in-time read, at whatever instant and
      whatever other parties do meanwhile. */
  lemma JoinedPair(s: State, t: Uuid, id: Uuid, e: Entity,
                   es: seq<Event>, s1: State, es': seq<Event>, s2: State, at: int)
    requires Enabled(s, Save(t, id, e)) && RowsOf(s.rows, Key(s.txs[t].tenant, id)) == []
    requires RunsAside(Next(s, Save(t, id, e)), es, s1, t, Key(s.txs[t].tenant, id))
    requires t in s1.txs && Enabled(s1, Get(t, id))
    requires RunsAside(Next(s1, Get(t, id)), es', s2, t, Key(s.txs[t].tenant, id))
    ensures Status(TxView(s1.txs[t], TxRows(s1, t, id), id)) == 200
    ensures Status(SnapshotAt(RowsOf(s2.rows, Key(s.txs[t].tenant, id)), at)) == 404
  {
    var k := Key(s.txs[t].tenant, id);
    AsideKeeps(Next(s, Save(t, id, e)), es, s1, t, k);
    AsideKeeps(Next(s1, Get(t, id)), es', s2, t, k);
  }

  /** What a tokenless create does: its own transaction `u`, begun and committed. */
  function CreateScript(u: Uuid, k: Key, e: Entity, begun: int, now: int): seq<Event> {
    [Begin(u, k.tenant, begun), Save(u, k.id, e), CommitMark(u, k.tenant),
     CommitCheck(u), CommitStamp(u, now), CommitRecord(u)]
  }

  /** A run in which `u` carries on with its script from step `p` to the end, and the
      events of others that fall in between leave `u` and `k` alone. */
  ghost predicate RunsScript(s: State, es: seq<Event>, s': State, script: seq<Event>, p: nat, u: Uuid, k: Key)
    decreases |es|
  {
    if es == [] then s == s' && p == |script|
    else
      && Enabled(s, es[0])
      && ((p < |script| && es[0] == script[p] && RunsScript(Next(s, es[0]), es[1..], s', script, p + 1, u, k)) ||
          (Aside(s, es[0], u, k) && RunsScript(Next(s, es[0]), es[1..], s', script, p, u, k)))
  }

  /** Where the create stands after `p` steps of its script. */
  predicate AtStep(s: State, u: Uuid, k: Key, e: Entity, p: nat, now: int) {
    if p == 0 then u !in s.txs && RowsOf(s.rows, k) == []
    else
      && u in s.txs
      && (p <= 5 ==> RowsOf(s.rows, k) == [])
      && (p == 1 ==> s.txs[u] == NewTx(u, k.tenant, s.txs[u].snapshot))
      && (2 <= p <= 5 ==>
            s.txs[u] == SaveIn(NewTx(u, k.tenant, s.txs[u].snapshot), k.id, e) || (p == 4 && Refused(s, u)))
      && (p == 4 ==> s.holder == Checked(u) || Refused(s, u))
      && (p == 5 ==> s.holder.Stamped? && s.holder.tx == u && now <= s.holder.stamp)
      && (p == 6 ==> Created(s, k, e, u, now))
  }

  /** The check found a conflict: `u` does not hold the lock and cannot go on. */
  predicate Refused(s: State, u: Uuid) {
    s.holder.Free? || s.holder.tx != u
  }

  /** The store holds the entity as its one version, stamped no earlier than `now`. */
  predicate Created(s: State, k: Key, e: Entity, u: Uuid, now: int) {
    && |RowsOf(s.rows, k)| == 1 && now <= RowsOf(s.rows, k)[0].stamp
    && RowsOf(s.rows, k) == [SavedRow([], e, u, RowsOf(s.rows, k)[0].stamp)]
  }

  /** What others leave alone. */
  lemma AsideStep(s: State, e: Event, t: Uuid, k: Key)
    requires Enabled(s, e) && Aside(s, e, t, k)
    ensures RowsOf(Next(s, e).rows, k) == RowsOf(s.rows, k)
    ensures t in s.txs ==> t in Next(s, e).txs && Next(s, e).txs[t] == s.txs[t]
    ensures t !in s.txs ==> t !in Next(s, e).txs
  {
    if e.CommitRecord? {
      AsideRecord(s, e.t, t, k);
    }
  }

  lemma AsideRecord(s: State, u: Uuid, t: Uuid, k: Key)
    requires Recording(s, u) && u != t
    requires s.txs[u].tenant == k.tenant ==> k.id !in s.txs[u].buffer && k.id !in s.txs[u].deletes
    ensures RowsOf(Recorded(s, u).rows, k) == RowsOf(s.rows, k)
    ensures t in s.txs ==> t in Recorded(s, u).txs && Recorded(s, u).txs[t] == s.txs[t]
    ensures t !in s.txs ==> t !in Recorded(s, u).txs
  {
  }

  lemma AsideLeavesLock(s: State, e: Event, t: Uuid, k: Key)
    requires Enabled(s, e) && Aside(s, e, t, k)
    ensures if Refused(s, t) then Refused(Next(s, e), t) else Next(s, e).holder == s.holder
  {
  }

  /** So the create stands where it stood. */
  lemma StandsAt(s: State, s': State, u: Uuid, k: Key, e: Entity, p: nat, now: int)
    requires AtStep(s, u, k, e, p, now) && p <= 6 && RowsOf(s'.rows, k) == RowsOf(s.rows, k)
    requires u in s.txs ==> u in s'.txs && s'.txs[u] == s.txs[u]
    requires u !in s.txs ==> u !in s'.txs
    requires if Refused(s, u) then Refused(s', u) else s'.holder == s.holder
    ensures AtStep(s', u, k, e, p, now)
  {
  }

  lemma AsideKeepsStep(s: State, e': Event, u: Uuid, k: Key, e: Entity, p: nat, now: int)
    requires AtStep(s, u, k, e, p, now) && p <= 6 && Enabled(s, e') && Aside(s, e', u, k)
    ensures AtStep(Next(s, e'), u, k, e, p, now)
  {
    AsideStep(s, e', u, k);
    AsideLeavesLock(s, e', u, k);
    StandsAt(s, Next(s, e'), u, k, e, p, now);
  }

  lemma CreateSaves(s: State, u: Uuid, k: Key, e: Entity, now: int)
    requires AtStep(s, u, k, e, 1, now) && Enabled(s, Save(u, k.id, e))
    ensures AtStep(Next(s, Save(u, k.id, e)), u, k, e, 2, now)
  {
  }

  lemma CreateChecks(s: State, u: Uuid, k: Key, e: Entity, now: int)
    requires AtStep(s, u, k, e, 3, now) && Enabled(s, CommitCheck(u))
    ensures AtStep(Next(s, CommitCheck(u)), u, k, e, 4, now)
  {
  }

  lemma CreateRecords(s: State, u: Uuid, k: Key, e: Entity, now: int)
    requires AtStep(s, u, k, e, 5, now) && s.active <= s.txs.Keys
    ensures AtStep(Recorded(s, u), u, k, e, 6, now)
  {
    OneVersion(s.rows, s.txs[u], k, e, s.holder.stamp);
  }

  lemma ScriptKeepsStep(s: State, u: Uuid, k: Key, e: Entity, p: nat, begun: int, now: int)
    requires AtStep(s, u, k, e, p, now) && p < 6 && Enabled(s, CreateScript(u, k, e, begun, now)[p])
    ensures AtStep(Next(s, CreateScript(u, k, e, begun, now)[p]), u, k, e, p + 1, now)
  {
    if p == 1 {
      CreateSaves(s, u, k, e, now);
    } else if p == 3 {
      CreateChecks(s, u, k, e, now);
    } else if p == 5 {
      CreateRecords(s, u, k, e, now);
    }
  }

  lemma OneVersion(rows: Rows, tx: Tx, k: Key, e: Entity, stamp: int)
    requires tx == SaveIn(NewTx(tx.id, k.tenant, tx.snapshot), k.id, e) && RowsOf(rows, k) == []
    ensures RowsOf(Flush(rows, tx, stamp), k) == [SavedRow([], e, tx.id, stamp)]
  {
    assert Superseded(tx, k.id) + [tx.buffer[k.id]] == [tx.buffer[k.id]];
    AppendSavesExtends([], [tx.buffer[k.id]], tx.id, stamp);
    assert AppendSaves([], [tx.buffer[k.id]], tx.id, stamp) == [SavedRow([], tx.buffer[k.id], tx.id, stamp)];
  }

  /** A create that got through leaves its entity as the one version, whatever others
      did between its steps. */
  lemma {:induction false} CreateGetsThrough(
      s: State, es: seq<Event>, s': State, u: Uuid, k: Key, e: Entity, p: nat, begun: int, now: int)
    requires AtStep(s, u, k, e, p, now) && p <= 6
    requires RunsScript(s, es, s', CreateScript(u, k, e, begun, now), p, u, k)
    ensures Created(s', k, e, u, now)
    decreases |es|
  {
    var script := CreateScript(u, k, e, begun, now);
    if es != [] {
      if p < 6 && es[0] == script[p] && RunsScript(Next(s, es[0]), es[1..], s', script, p + 1, u, k) {
        ScriptKeepsStep(s, u, k, e, p, begun, now);
        CreateGetsThrough(Next(s, es[0]), es[1..], s', u, k, e, p + 1, begun, now);
      } else {
        AsideKeepsStep(s, es[0], u, k, e, p, now);
        CreateGetsThrough(Next(s, es[0]), es[1..], s', u, k, e, p, begun, now);
      }
    }
  }

  /** Standalone: the same processor without a token finds its entity plainly, and at
      the instant `at` exactly when the create's stamp is not after it, whatever others
      do before, between and after the steps of the create. */
  lemma StandalonePair(s: State, es: seq<Event>, s1: State, es': seq<Event>, s2: State,
                       u: Uuid, k: Key, e: Entity, begun: int, now: int, at: int)
    requires u !in s.txs && RowsOf(s.rows, k) == []
    requires RunsScript(s, es, s1, CreateScript(u, k, e, begun, now), 0, u, k)
    requires RunsAside(s1, es', s2, u, k)
    ensures |RowsOf(s2.rows, k)| == 1 && now <= RowsOf(s2.rows, k)[0].stamp
    ensures Status(Latest(RowsOf(s2.rows, k))) == 200
    ensures Status(SnapshotAt(RowsOf(s2.rows, k), at)) == if RowsOf(s2.rows, k)[0].stamp <= at then 200 else 404
  {
    CreateGetsThrough(s, es, s1, u, k, e, 0, begun, now);
    AsideKeeps(s1, es', s2, u, k);
    var vs := RowsOf(s2.rows, k);
    assert vs[..|vs| - 1] == [];
  }

  // --- cb-conditional-delete ---------------------------------------------

  /** The delete condition: an entity of the model whose status is the marker. */
  predicate Matches(e: Entity, model: string, marker: string) {
    e.model == model && e.data.Obj? && "status" in e.data.fields && e.data.fields["status"] == Str(marker)
  }

  /** What a listing of `model` under the transaction yields for `id`: the
      buffered value if it is of the model, else the snapshot's unless deleted. */
  function Listed(rows: Rows, tx: Tx, model: string, id: Uuid): Option<Entity> {
    if id in tx.buffer && tx.buffer[id].model == model then Some(tx.buffer[id])
    else if id in tx.deletes then None
    else OfModel(SnapshotAt(RowsOf(rows, Key(tx.tenant, id)), tx.snapshot), model)
  }

  predicate Selects(rows: Rows, tx: Tx, model: string, marker: string, id: Uuid) {
    Listed(rows, tx, model, id).Some? && Matches(Listed(rows, tx, model, id).value, model, marker)
  }

  function OfModel(v: Option<Entity>, model: string): Option<Entity> {
    if v.Some? && v.value.model == model then v else None
  }

  function ViewOf(rows: Rows, tx: Tx, id: Uuid): Option<Entity> {
    TxView(tx, RowsOf(rows, Key(tx.tenant, id)), id)
  }

  /** A listing agrees with reads one by one exactly when the transaction has not
      moved the entity to another model. */
  lemma ListedIsView(rows: Rows, tx: Tx, model: string, id: Uuid)
    requires TxOk(tx)
    ensures Listed(rows, tx, model, id) == OfModel(ViewOf(rows, tx, id), model) <==>
            !(id in tx.buffer && tx.buffer[id].model != model &&
              OfModel(SnapshotAt(RowsOf(rows, Key(tx.tenant, id)), tx.snapshot), model).Some?)
  {
    assert WorkOk(tx.id, tx.buffer, tx.writeSet, tx.deletes);
  }

  /** buildSnapshot's first half: the committed entities at the snapshot. */
  method ListCommitted(rows: Rows, tx: Tx, model: string) returns (listed: map<Uuid, Entity>)
    requires forall k :: k in rows ==> Ordered(rows[k])
    ensures forall id :: (id in listed <==>
                          id !in tx.deletes &&
                          OfModel(SnapshotAt(RowsOf(rows, Key(tx.tenant, id)), tx.snapshot), model).Some?)
    ensures forall id :: id in listed ==>
                Some(listed[id]) == SnapshotAt(RowsOf(rows, Key(tx.tenant, id)), tx.snapshot)
  {
    listed := map[];
    var rest := rows.Keys;
    while rest != {}
      invariant rest <= rows.Keys
      invariant forall id :: (id in listed <==>
                              Key(tx.tenant, id) !in rest && id !in tx.deletes &&
                              OfModel(SnapshotAt(RowsOf(rows, Key(tx.tenant, id)), tx.snapshot), model).Some?)
      invariant forall id :: id in listed ==>
                    Some(listed[id]) == SnapshotAt(RowsOf(rows, Key(tx.tenant, id)), tx.snapshot)
      decreases rest
    {
      var k := AnyOf(rest);
      rest := rest - {k};
      if k.tenant == tx.tenant {
        var found := ReadAt(rows[k], tx.snapshot);
        if found.Some? && found.value.model == model && k.id !in tx.deletes {
          listed := listed[k.id := found.value];
        }
      }
    }
  }

  /** The ids a delete by condition selects: the listing with the transaction's
      buffer overlaid, filtered by the condition. */
  method SelectIds(rows: Rows, tx: Tx, model: string, marker: string) returns (ids: seq<Uuid>)
    requires forall k :: k in rows ==> Ordered(rows[k])
    ensures Unique(ids)
    ensures forall id :: id in ids <==> Selects(rows, tx, model, marker, id)
  {
    var merged := ListCommitted(rows, tx, model);
    merged := merged + map id | id in tx.buffer && tx.buffer[id].model == model :: tx.buffer[id];
    ids := [];
    var rest := merged.Keys;
    while rest != {}
      invariant rest <= merged.Keys && Unique(ids)
      invariant forall id :: id in ids <==> id in merged && id !in rest && Matches(merged[id], model, marker)
      decreases rest
    {
      var id := AnyOf(rest);
      rest := rest - {id};
      if Matches(merged[id], model, marker) {
        ids := ids + [id];
      }
    }
  }

  predicate Unique(ids: seq<Uuid>) {
    forall i, j :: 0 <= i < j < |ids| ==> ids[i] != ids[j]
  }

  /** Deleting one id after the other; when the i-th delete runs, others have left the
      store as `stores[i]`. */
  function DeleteEach(stores: seq<Rows>, tx: Tx, ids: seq<Uuid>): Tx
    requires |stores| == |ids|
  {
    if ids == [] then tx else DeleteEach(stores[1..], DeleteOne(stores[0], tx, ids[0]), ids[1..])
  }

  function DeleteOne(rows: Rows, tx: Tx, id: Uuid): Tx {
    if DeleteAccepts(tx, RowsOf(rows, Key(tx.tenant, id)), id) then DeleteIn(tx, id) else tx
  }

  /** The delete of `id` is accepted when its turn comes. */
  predicate Accepted(stores: seq<Rows>, tx: Tx, ids: seq<Uuid>, id: Uuid)
    requires |stores| == |ids|
  {
    exists i :: 0 <= i < |ids| && ids[i] == id && DeleteAccepts(tx, RowsOf(stores[i], Key(tx.tenant, id)), id)
  }

  lemma AcceptedLater(stores: seq<Rows>, tx: Tx, ids: seq<Uuid>, id: Uuid)
    requires |stores| == |ids| && ids != [] && Unique(ids) && id != ids[0]
    ensures Accepted(stores, tx, ids, id) <==> Accepted(stores[1..], DeleteOne(stores[0], tx, ids[0]), ids[1..], id)
  {
    var tx' := DeleteOne(stores[0], tx, ids[0]);
    assert id in tx'.buffer <==> id in tx.buffer;
    if i :| 0 <= i < |ids| && ids[i] == id && DeleteAccepts(tx, RowsOf(stores[i], Key(tx.tenant, id)), id) {
      assert ids[1..][i - 1] == id && stores[1..][i - 1] == stores[i];
    }
    if i :| 0 <= i < |ids[1..]| && ids[1..][i] == id &&
            DeleteAccepts(tx', RowsOf(stores[1..][i], Key(tx.tenant, id)), id) {
      assert ids[i + 1] == id && stores[i + 1] == stores[1..][i];
    }
  }

  /** Deleting the selected ids hides exactly those the store still has at their turn. */
  lemma {:induction false} DeleteEachHides(rows: Rows, stores: seq<Rows>, tx: Tx, ids: seq<Uuid>, id: Uuid)
    requires |stores| == |ids| && Unique(ids)
    ensures DeleteEach(stores, tx, ids).tenant == tx.tenant
    ensures ViewOf(rows, DeleteEach(stores, tx, ids), id) ==
            if Accepted(stores, tx, ids, id) then None else ViewOf(rows, tx, id)
    decreases |ids|
  {
    if ids != [] {
      DeleteEachHides(rows, stores[1..], DeleteOne(stores[0], tx, ids[0]), ids[1..], id);
      if id != ids[0] {
        AcceptedLater(stores, tx, ids, id);
      }
    }
  }

  /** The ids whose delete is refused. */
  function RefusedOf(stores: seq<Rows>, tx: Tx, ids: seq<Uuid>): set<Uuid>
    requires |stores| == |ids|
  {
    if ids == [] then {}
    else
      (if DeleteAccepts(tx, RowsOf(stores[0], Key(tx.tenant, ids[0])), ids[0]) then {} else {ids[0]}) +
      RefusedOf(stores[1..], DeleteOne(stores[0], tx, ids[0]), ids[1..])
  }

  /** An id's delete is refused exactly when it is not accepted at its turn. */
  lemma {:induction false} RefusedAreNotAccepted(stores: seq<Rows>, tx: Tx, ids: seq<Uuid>, id: Uuid)
    requires |stores| == |ids| && Unique(ids)
    ensures id in RefusedOf(stores, tx, ids) <==> id in ids && !Accepted(stores, tx, ids, id)
    decreases |ids|
  {
    if ids != [] {
      RefusedAreNotAccepted(stores[1..], DeleteOne(stores[0], tx, ids[0]), ids[1..], id);
      assert id in ids <==> id == ids[0] || id in ids[1..];
      if id != ids[0] {
        AcceptedLater(stores, tx, ids, id);
      }
    }
  }

  /** One delete of the loop, on the store as others have left it. */
  method DeleteAt(m: TransactionManager, t: Uuid, id: Uuid, rows: Rows) returns (deleted: bool)
    requires m.Valid() && m.Takes(t)
    modifies m`txs, m`rows
    ensures m.Valid() && m.Takes(t)
    ensures m.txs == old(m.txs)[t := DeleteOne(rows, old(m.txs)[t], id)]
    ensures deleted <==> DeleteAccepts(old(m.txs)[t], RowsOf(rows, Key(old(m.txs)[t].tenant, id)), id)
  {
    m.rows := rows;
    var r := m.Delete(t, id);
    deleted := r == Done;
  }

  /** The work of the last delete of the list. */
  lemma {:induction false} DeleteEachLast(stores: seq<Rows>, tx: Tx, ids: seq<Uuid>)
    requires |stores| == |ids| && ids != []
    ensures
      var n := |ids| - 1;
      var before := DeleteEach(stores[..n], tx, ids[..n]);
      && DeleteEach(stores, tx, ids) == DeleteOne(stores[n], before, ids[n])
      && RefusedOf(stores, tx, ids) == RefusedOf(stores[..n], tx, ids[..n]) +
         (if DeleteAccepts(before, RowsOf(stores[n], Key(before.tenant, ids[n])), ids[n]) then {} else {ids[n]})
    decreases |ids|
  {
    var n := |ids| - 1;
    if n > 0 {
      assert stores[1..][..n - 1] == stores[..n][1..] && ids[1..][..n - 1] == ids[..n][1..];
      DeleteEachLast(stores[1..], DeleteOne(stores[0], tx, ids[0]), ids[1..]);
    }
  }

  lemma {:induction false} RefusedAreListed(stores: seq<Rows>, tx: Tx, ids: seq<Uuid>)
    requires |stores| == |ids|
    ensures forall id :: id in RefusedOf(stores, tx, ids) ==> id in ids
    decreases |ids|
  {
    if ids != [] {
      RefusedAreListed(stores[1..], DeleteOne(stores[0], tx, ids[0]), ids[1..]);
      assert ids == [ids[0]] + ids[1..];
    }
  }

  lemma OneMoreDeleted(stores: seq<Rows>, tx: Tx, ids: seq<Uuid>, i: nat)
    requires |stores| == |ids| && i < |ids| && Unique(ids)
    ensures
      var before := DeleteEach(stores[..i], tx, ids[..i]);
      && DeleteEach(stores[..i + 1], tx, ids[..i + 1]) == DeleteOne(stores[i], before, ids[i])
      && RefusedOf(stores[..i + 1], tx, ids[..i + 1]) == RefusedOf(stores[..i], tx, ids[..i]) +
         (if DeleteAccepts(before, RowsOf(stores[i], Key(before.tenant, ids[i])), ids[i]) then {} else {ids[i]})
      && ids[i] !in RefusedOf(stores[..i], tx, ids[..i])
  {
    assert stores[..i + 1][..i] == stores[..i] && ids[..i + 1][..i] == ids[..i];
    DeleteEachLast(stores[..i + 1], tx, ids[..i + 1]);
    RefusedAreListed(stores[..i], tx, ids[..i]);
  }

  lemma Overwrite<K, V>(m: map<K, V>, k: K, a: V, b: V)
    ensures m[k := a][k := b] == m[k := b]
  {
  }

  /** The delete loop: a refused id is reported and skipped. Between two deletes other
      parties commit to the store. */
  method DeleteSelected(m: TransactionManager, t: Uuid, ids: seq<Uuid>, stores: seq<Rows>)
    returns (removed: nat, failed: set<Uuid>)
    requires m.Valid() && m.Takes(t) && Unique(ids) && |stores| == |ids|
    modifies m`txs, m`rows
    ensures m.Valid() && m.Takes(t)
    ensures m.txs == old(m.txs)[t := DeleteEach(stores, old(m.txs)[t], ids)]
    ensures failed == RefusedOf(stores, old(m.txs)[t], ids)
    ensures removed + |failed| == |ids|
  {
    removed, failed := 0, {};
    ghost var tx0 := m.txs[t];
    for i := 0 to |ids|
      invariant m.Valid() && m.Takes(t) && m.txs == old(m.txs)[t := DeleteEach(stores[..i], tx0, ids[..i])]
      invariant failed == RefusedOf(stores[..i], tx0, ids[..i]) && removed + |failed| == i
    {
      OneMoreDeleted(stores, tx0, ids, i);
      var deleted := DeleteAt(m, t, ids[i], stores[i]);
      Overwrite(old(m.txs), t, DeleteEach(stores[..i], tx0, ids[..i]), m.txs[t]);
      if deleted {
        removed := removed + 1;
      } else {
        failed := failed + {ids[i]};
      }
    }
    assert stores[..|ids|] == stores && ids[..|ids|] == ids;
  }

  /** The body createSecondary posts. */
  function Child(model: string, status: string): Entity {
    Entity(model, Obj(map["name" := Str("child"), "amount" := Num(1.0), "status" := Str(status)]), NO_ID)
  }

  function KeepMarker(marker: string): string { marker + "-keep" }

  /** The transaction after the processor's two creates. */
  function WithChildren(tx: Tx, doomed: Uuid, kept: Uuid, model: string, marker: string): Tx {
    SaveIn(SaveIn(tx, doomed, Child(model, marker)), kept, Child(model, KeepMarker(marker)))
  }

  predicate Hit(rows: Rows, tx: Tx, model: string, marker: string, id: Uuid) {
    ViewOf(rows, tx, id).Some? && Matches(ViewOf(rows, tx, id).value, model, marker)
  }

  /** No entity has changed model inside the transaction. */
  ghost predicate ModelsKept(rows: Rows, tx: Tx) {
    forall id :: id in tx.buffer ==>
      var before := SnapshotAt(RowsOf(rows, Key(tx.tenant, id)), tx.snapshot);
      before.Some? ==> before.value.model == tx.buffer[id].model
  }

  /** createSecondary under a token. */
  method CreateSecondary(m: TransactionManager, t: Uuid, id: Uuid, model: string, status: string)
    requires m.Valid() && m.Takes(t)
    modifies m`txs, m`spare
    ensures m.Valid() && m.Takes(t) && m.txs == old(m.txs)[t := SaveIn(old(m.txs)[t], id, Child(model, status))]
  {
    var r := m.Save(t, id, Child(model, status));
  }

  /** cb-conditional-delete, end to end under a token: two creates, the selection, and
      the deletes, each on the store as others have left it by then. */
  method ConditionalDelete(m: TransactionManager, t: Uuid, doomed: Uuid, kept: Uuid, model: string, marker: string,
                           selectFrom: Rows, later: nat -> Rows)
    returns (ghost ids: seq<Uuid>, ghost stores: seq<Rows>)
    requires m.Valid() && m.Takes(t) && forall k :: k in selectFrom ==> Ordered(selectFrom[k])
    modifies m`txs, m`rows, m`spare
    ensures m.Valid() && Unique(ids) && |stores| == |ids| && forall i :: 0 <= i < |ids| ==> stores[i] == later(i)
    ensures
      var tx := WithChildren(old(m.txs)[t], doomed, kept, model, marker);
      && (forall id :: id in ids <==> Selects(selectFrom, tx, model, marker, id))
      && m.txs == old(m.txs)[t := DeleteEach(stores, tx, ids)]
  {
    CreateSecondary(m, t, doomed, model, marker);
    CreateSecondary(m, t, kept, model, KeepMarker(marker));
    ghost var tx := WithChildren(old(m.txs)[t], doomed, kept, model, marker);
    assert m.txs == old(m.txs)[t := tx];
    m.rows := selectFrom;
    var selected := SelectIds(m.rows, m.txs[t], model, marker);
    var seen := seq(|selected|, i requires 0 <= i => later(i));
    var removed, failed := DeleteSelected(m, t, selected, seen);
    ids, stores := selected, seen;
    Overwrite(old(m.txs), t, tx, DeleteEach(seen, tx, selected));
  }

  lemma SelectionIsHits(rows: Rows, tx: Tx, model: string, marker: string, id: Uuid)
    requires TxOk(tx) && ModelsKept(rows, tx)
    ensures Selects(rows, tx, model, marker, id) <==> Hit(rows, tx, model, marker, id)
  {
    ListedIsView(rows, tx, model, id);
  }

  lemma ChildrenViews(rows: Rows, tx: Tx, doomed: Uuid, kept: Uuid, model: string, marker: string)
    requires doomed != kept
    ensures
      var mid := WithChildren(tx, doomed, kept, model, marker);
      && mid.tenant == tx.tenant
      && Hit(rows, mid, model, marker, doomed) && doomed in mid.buffer
      && !Hit(rows, mid, model, marker, kept)
      && ViewOf(rows, mid, kept) == Some(Child(model, KeepMarker(marker)).(txId := tx.id))
      && (forall id :: id != doomed && id != kept ==>
            ViewOf(rows, mid, id) == ViewOf(rows, tx, id) && (id in mid.buffer <==> id in tx.buffer))
  {
    assert |KeepMarker(marker)| != |marker|;
  }

  lemma SameAcceptance(stores: seq<Rows>, a: Tx, b: Tx, ids: seq<Uuid>, id: Uuid)
    requires |stores| == |ids| && a.tenant == b.tenant && (id in a.buffer <==> id in b.buffer)
    ensures Accepted(stores, a, ids, id) <==> Accepted(stores, b, ids, id)
  {
    if i :| 0 <= i < |ids| && ids[i] == id && DeleteAccepts(a, RowsOf(stores[i], Key(a.tenant, id)), id) {
      assert DeleteAccepts(b, RowsOf(stores[i], Key(b.tenant, id)), id);
    }
    if i :| 0 <= i < |ids| && ids[i] == id && DeleteAccepts(b, RowsOf(stores[i], Key(b.tenant, id)), id) {
      assert DeleteAccepts(a, RowsOf(stores[i], Key(a.tenant, id)), id);
    }
  }

  lemma ChildrenKeepTxOk(tx: Tx, doomed: Uuid, kept: Uuid, model: string, marker: string)
    requires TxOk(tx)
    ensures TxOk(WithChildren(tx, doomed, kept, model, marker))
  {
    WriteKeepsTxOk(tx, doomed, Child(model, marker));
    WriteKeepsTxOk(SaveIn(tx, doomed, Child(model, marker)), kept, Child(model, KeepMarker(marker)));
  }

  /** The two entities the processor made: one is deleted, the other stays. */
  lemma ChildrenAfterDelete(rows: Rows, stores: seq<Rows>, tx: Tx, doomed: Uuid, kept: Uuid,
                            model: string, marker: string, ids: seq<Uuid>)
    requires TxOk(tx) && doomed != kept && Unique(ids) && |stores| == |ids|
    requires ModelsKept(rows, WithChildren(tx, doomed, kept, model, marker))
    requires forall id :: id in ids <==> Selects(rows, WithChildren(tx, doomed, kept, model, marker), model, marker, id)
    ensures
      var after := DeleteEach(stores, WithChildren(tx, doomed, kept, model, marker), ids);
      && ViewOf(rows, after, doomed) == None
      && ViewOf(rows, after, kept) == Some(Child(model, KeepMarker(marker)).(txId := tx.id))
      && !Hit(rows, after, model, marker, kept)
  {
    var mid := WithChildren(tx, doomed, kept, model, marker);
    ChildrenKeepTxOk(tx, doomed, kept, model, marker);
    ChildrenViews(rows, tx, doomed, kept, model, marker);
    SelectionIsHits(rows, mid, model, marker, doomed);
    SelectionIsHits(rows, mid, model, marker, kept);
    DeleteEachHides(rows, stores, mid, ids, doomed);
    DeleteEachHides(rows, stores, mid, ids, kept);
    var i :| 0 <= i < |ids| && ids[i] == doomed;
    assert DeleteAccepts(mid, RowsOf(stores[i], Key(mid.tenant, doomed)), doomed);
  }

  /** Any other entity: gone when it matched and its delete was accepted, else as it was. */
  lemma OtherAfterDelete(rows: Rows, stores: seq<Rows>, tx: Tx, doomed: Uuid, kept: Uuid,
                         model: string, marker: string, ids: seq<Uuid>, id: Uuid)
    requires TxOk(tx) && doomed != kept && Unique(ids) && |stores| == |ids| && id != doomed && id != kept
    requires ModelsKept(rows, WithChildren(tx, doomed, kept, model, marker))
    requires id in ids <==> Selects(rows, WithChildren(tx, doomed, kept, model, marker), model, marker, id)
    ensures
      var after := DeleteEach(stores, WithChildren(tx, doomed, kept, model, marker), ids);
      && (!Hit(rows, tx, model, marker, id) ==> ViewOf(rows, after, id) == ViewOf(rows, tx, id))
      && (Hit(rows, after, model, marker, id) <==>
          Hit(rows, tx, model, marker, id) && !Accepted(stores, tx, ids, id))
  {
    var mid := WithChildren(tx, doomed, kept, model, marker);
    ChildrenKeepTxOk(tx, doomed, kept, model, marker);
    ChildrenViews(rows, tx, doomed, kept, model, marker);
    SelectionIsHits(rows, mid, model, marker, id);
    DeleteEachHides(rows, stores, mid, ids, id);
    SameAcceptance(stores, mid, tx, ids, id);
  }

  /** What the processor leaves in the transaction's view: the keeper it created, not the
      other; every entity the condition did not match as it was; and no match at all
      exactly when every match that the transaction did not itself save is still in the
      store when its turn to be deleted comes, because otherwise its delete is refused.
      The view is of the store selected from, and stays so by SnapshotIsStable. */
  lemma ConditionalDeleteClears(rows: Rows, stores: seq<Rows>, tx: Tx, doomed: Uuid, kept: Uuid,
                                model: string, marker: string, ids: seq<Uuid>)
    requires TxOk(tx) && doomed != kept && Unique(ids) && |stores| == |ids|
    requires ModelsKept(rows, WithChildren(tx, doomed, kept, model, marker))
    requires forall id :: id in ids <==> Selects(rows, WithChildren(tx, doomed, kept, model, marker), model, marker, id)
    ensures
      var after := DeleteEach(stores, WithChildren(tx, doomed, kept, model, marker), ids);
      && ViewOf(rows, after, doomed) == None
      && ViewOf(rows, after, kept) == Some(Child(model, KeepMarker(marker)).(txId := tx.id))
      && (forall id :: id != doomed && id != kept && !Hit(rows, tx, model, marker, id) ==>
            ViewOf(rows, after, id) == ViewOf(rows, tx, id))
      && ((forall id :: !Hit(rows, after, model, marker, id)) <==>
          (forall id :: id != doomed && id != kept && Hit(rows, tx, model, marker, id) ==>
             Accepted(stores, tx, ids, id)))
  {
    ChildrenAfterDelete(rows, stores, tx, doomed, kept, model, marker, ids);
    forall id | id != doomed && id != kept
      ensures
        var after := DeleteEach(stores, WithChildren(tx, doomed, kept, model, marker), ids);
        && (!Hit(rows, tx, model, marker, id) ==> ViewOf(rows, after, id) == ViewOf(rows, tx, id))
        && (Hit(rows, after, model, marker, id) <==>
            Hit(rows, tx, model, marker, id) && !Accepted(stores, tx, ids, id))
    {
      OtherAfterDelete(rows, stores, tx, doomed, kept, model, marker, ids, id);
    }
  }

  /** A match survives in a run: committed, seen by transaction 4 that began after it,
      and then deleted by somebody else, so that the delete under 4 is refused. */
  lemma MatchSurvives(model: string, marker: string) returns (es: seq<Event>, w: World)
    ensures Runs(START, es, w) && 4 in w.s.active && 4 in w.s.txs
    ensures Hit(w.s.rows, w.s.txs[4], model, marker, 9) && !Enabled(w.s, Delete(4, 9))
    ensures Hit(w.s.rows, DeleteEach([w.s.rows], w.s.txs[4], [9]), model, marker, 9)
  {
    var k := Key(1, 9);
    es, w := [], START;
    es, w := WritesDirectly(START, es, w, k, Child(model, marker), 1);
    var r1 := RowsOf(w.s.rows, k);
    assert |r1| == 1 && r1[0].entity == Some(Child(model, marker)) && r1[0].stamp == 1;
    es, w := Begins(START, es, w, 4, 1, 5);
    es, w := DeletesDirectly(START, es, w, k, 7);
    var r2 := RowsOf(w.s.rows, k);
    assert r2[..|r2| - 1] == r1 && r2[1].entity == None && r2[1].stamp == 7;
    assert SnapshotAt(r1, 5) == Some(Child(model, marker)) == SnapshotAt(r2, 5);
    var tx := w.s.txs[4];
    assert DeleteOne(w.s.rows, tx, 9) == tx && [9][1..] == [];
  }
}
