/** Serial equivalence: each committed transaction of any concurrent run behaves
    as if it had run alone, on a plain map, at its commit point. */
module Serial {
  import opened Json
  import opened Versions
  import opened Transactions
  import opened TxSystem
  import opened Isolation

  // --- the reference: operations on a plain map --------------------------

  type Db = map<Key, Entity>

  function Lookup(db: Db, k: Key): Option<Entity> {
    if k in db then Some(db[k]) else None
  }

  /** What a client did and observed. */
  datatype Obs =
    | Read(id: Uuid, result: Option<Entity>)
    | Wrote(id: Uuid, value: Entity)
    | Swapped(id: Uuid, value: Entity, expected: Uuid)
    | Removed(id: Uuid)
    | RemovedAgain(id: Uuid)

  /** Who did it: the transaction id its writes carry, and the tenant. */
  datatype Actor = Actor(t: Uuid, tenant: Uuid)

  function Apply(db: Db, a: Actor, o: Obs): Db {
    match o
    case Read(_, _) => db
    case Wrote(id, v) => db[Key(a.tenant, id) := v.(txId := a.t)]
    case Swapped(id, v, _) => db[Key(a.tenant, id) := v.(txId := a.t)]
    case Removed(id) => db - {Key(a.tenant, id)}
    case RemovedAgain(id) => db - {Key(a.tenant, id)}
  }

  /** The observation is what the plain map would have answered. */
  predicate Allowed(db: Db, a: Actor, o: Obs) {
    match o
    case Read(id, result) => result == Lookup(db, Key(a.tenant, id))
    case Wrote(_, _) => true
    case Swapped(id, _, expected) => Key(a.tenant, id) in db && db[Key(a.tenant, id)].txId == expected
    case Removed(id) => Key(a.tenant, id) in db
    case RemovedAgain(id) => Key(a.tenant, id) !in db
  }

  function Replay(db: Db, a: Actor, obs: seq<Obs>): Db {
    if obs == [] then db else Apply(Replay(db, a, obs[..|obs| - 1]), a, obs[|obs| - 1])
  }

  /** All observations of `id` are what the plain map would have answered. */
  predicate Faithful(db: Db, a: Actor, obs: seq<Obs>, id: Uuid) {
    obs != [] ==>
      var prefix, o := obs[..|obs| - 1], obs[|obs| - 1];
      Faithful(db, a, prefix, id) && (o.id == id ==> Allowed(Replay(db, a, prefix), a, o))
  }

  lemma {:induction false} FaithfulAt(db: Db, a: Actor, obs: seq<Obs>, j: nat)
    requires j < |obs| && Faithful(db, a, obs, obs[j].id)
    ensures Allowed(Replay(db, a, obs[..j]), a, obs[j])
  {
    if j < |obs| - 1 {
      FaithfulAt(db, a, obs[..|obs| - 1], j);
      assert obs[..|obs| - 1][..j] == obs[..j];
    }
  }

  // --- what a script leaves behind ---------------------------------------

  function Saved(t: Uuid, obs: seq<Obs>): map<Uuid, Entity> {
    if obs == [] then map[]
    else
      var m, o := Saved(t, obs[..|obs| - 1]), obs[|obs| - 1];
      match o
      case Read(_, _) => m
      case Wrote(id, v) => m[id := v.(txId := t)]
      case Swapped(id, v, _) => m[id := v.(txId := t)]
      case Removed(id) => m - {id}
      case RemovedAgain(id) => m - {id}
  }

  function Gone(obs: seq<Obs>): set<Uuid> {
    if obs == [] then {}
    else
      var g, o := Gone(obs[..|obs| - 1]), obs[|obs| - 1];
      match o
      case Read(_, _) => g
      case Wrote(id, _) => g - {id}
      case Swapped(id, _, _) => g - {id}
      case Removed(id) => g + {id}
      case RemovedAgain(id) => g + {id}
  }

  function Mentioned(obs: seq<Obs>): set<Uuid> {
    set o | o in obs :: o.id
  }

  /** Replaying a script overlays its saved values and removals on the map. */
  lemma {:induction false} ReplayOverlays(db: Db, a: Actor, obs: seq<Obs>, k: Key)
    ensures k.tenant != a.tenant ==> Lookup(Replay(db, a, obs), k) == Lookup(db, k)
    ensures k.tenant == a.tenant && k.id in Saved(a.t, obs) ==>
      Lookup(Replay(db, a, obs), k) == Some(Saved(a.t, obs)[k.id])
    ensures k.tenant == a.tenant && k.id in Gone(obs) ==>
      Lookup(Replay(db, a, obs), k) == None && k.id !in Saved(a.t, obs)
    ensures k.tenant == a.tenant && k.id !in Saved(a.t, obs) && k.id !in Gone(obs) ==>
      Lookup(Replay(db, a, obs), k) == Lookup(db, k)
  {
    if obs != [] {
      ReplayOverlays(db, a, obs[..|obs| - 1], k);
    }
  }

  /** A script is as faithful to an entity on any map that agrees on it. */
  lemma {:induction false} FaithfulTransfers(db: Db, db': Db, a: Actor, obs: seq<Obs>, id: Uuid)
    requires Faithful(db, a, obs, id) && Lookup(db, Key(a.tenant, id)) == Lookup(db', Key(a.tenant, id))
    ensures Faithful(db', a, obs, id)
  {
    if obs != [] {
      var prefix := obs[..|obs| - 1];
      FaithfulTransfers(db, db', a, prefix, id);
      ReplayOverlays(db, a, prefix, Key(a.tenant, id));
      ReplayOverlays(db', a, prefix, Key(a.tenant, id));
    }
  }

  lemma {:induction false} UnmentionedIsFaithful(db: Db, a: Actor, obs: seq<Obs>, id: Uuid)
    requires id !in Mentioned(obs)
    ensures Faithful(db, a, obs, id)
  {
    if obs != [] {
      UnmentionedIsFaithful(db, a, obs[..|obs| - 1], id);
      assert obs[|obs| - 1].id in Mentioned(obs);
    }
  }

  lemma MentionedAppend(obs: seq<Obs>, o: Obs)
    ensures Mentioned(obs + [o]) == Mentioned(obs) + {o.id}
    ensures (obs + [o])[..|obs|] == obs
  {
  }

  // --- concurrent runs with their scripts --------------------------------

  /** A transaction's script, the committed map it began on, and the script as
      it stood at each savepoint. */
  datatype Script = Script(base: Db, obs: seq<Obs>, marks: map<Uuid, seq<Obs>>)

  /** One committed unit, in commit order: a transaction, or a direct write. `stale`
      are the entities that direct writes touched since the transaction began. */
  datatype Unit = Unit(a: Actor, obs: seq<Obs>, stale: set<Uuid>, direct: bool)

  datatype Trace = Trace(w: World, scripts: map<Uuid, Script>, done: seq<Unit>)

  function Current(rows: Rows): Db {
    map k | k in rows && Latest(rows[k]).Some? :: Latest(rows[k]).value
  }

  const EMPTY_TRACE := Trace(START, map[], [])

  function Stale(w: World, t: Uuid): set<Uuid>
    requires t in w.s.txs && t in w.dirtied
  {
    set k | k in w.dirtied[t] && k.tenant == w.s.txs[t].tenant :: k.id
  }

  /** A step must be enabled, and nobody rolls back a transaction whose commit is
      under way (internal/domain/entity/txscope.go never does). */
  predicate CanStep(tr: Trace, e: Event) {
    && Enabled(tr.w.s, e)
    && (e.Rollback? ==> e.t !in tr.w.s.marked)
    && tr.scripts.Keys == tr.w.s.txs.Keys && tr.w.dirtied.Keys == tr.w.s.txs.Keys
    && (forall t, sp :: t in tr.w.s.txs && sp in tr.w.s.txs[t].savepoints ==> sp in tr.scripts[t].marks)
  }

  /** How work on a transaction extends, marks or rewinds its script. */
  function NextScript(s: State, sc: Script, e: Event): Script
    requires TxWork(e) && e.t in s.txs
    requires e.RollbackToSavepoint? || e.RollbackPanics? ==> e.sp in sc.marks
  {
    match e
    case Get(t, id) => Noted(sc, Read(id, TxView(s.txs[t], TxRows(s, t, id), id)))
    case Save(_, id, v) => Noted(sc, Wrote(id, v))
    case CompareAndSave(_, id, v, expected) => Noted(sc, Swapped(id, v, expected))
    case Delete(t, id) => Noted(sc, if id in s.txs[t].deletes then RemovedAgain(id) else Removed(id))
    case TakeSavepoint(_, sp) => sc.(marks := sc.marks[sp := sc.obs])
    case RollbackToSavepoint(_, sp) => sc.(obs := sc.marks[sp])
    case RollbackPanics(_, sp, _) => sc.(obs := sc.marks[sp])
    case _ => sc
  }

  function Noted(sc: Script, o: Obs): Script {
    sc.(obs := sc.obs + [o])
  }

  function NextScripts(tr: Trace, e: Event): map<Uuid, Script>
    requires CanStep(tr, e)
  {
    if TxWork(e) then tr.scripts[e.t := NextScript(tr.w.s, tr.scripts[e.t], e)]
    else if e.Begin? then tr.scripts[e.t := Script(Current(Pending(tr.w.s)), [], map[])]
    else tr.scripts
  }

  function CommittedUnit(w: World, t: Uuid, sc: Script): Unit
    requires t in w.s.txs && t in w.dirtied
  {
    Unit(Actor(t, w.s.txs[t].tenant), sc.obs, Stale(w, t), false)
  }

  function SavedUnit(k: Key, v: Entity): Unit {
    Unit(Actor(v.txId, k.tenant), [Wrote(k.id, v)], {}, true)
  }

  function DeletedUnit(k: Key): Unit {
    Unit(Actor(NO_ID, k.tenant), [Removed(k.id)], {}, true)
  }

  function NextDone(tr: Trace, e: Event): seq<Unit>
    requires CanStep(tr, e)
  {
    match e
    case CommitRecord(t) => tr.done + [CommittedUnit(tr.w, t, tr.scripts[t])]
    case DirectSave(k, v, _) => tr.done + [SavedUnit(k, v)]
    case DirectDelete(k, _) => tr.done + [DeletedUnit(k)]
    case _ => tr.done
  }

  function Advance(tr: Trace, e: Event): Trace
    requires CanStep(tr, e)
  {
    Trace(Step(tr.w, e), NextScripts(tr, e), NextDone(tr, e))
  }

  function ReplayAll(done: seq<Unit>): Db {
    if done == [] then map[] else Replay(ReplayAll(done[..|done| - 1]), done[|done| - 1].a, done[|done| - 1].obs)
  }

  /** Of every entity that is not stale, every unit observed exactly what running the
      units one after the other would have shown it. */
  ghost predicate SerialChain(done: seq<Unit>) {
    forall i, id :: 0 <= i < |done| && id !in done[i].stale ==>
      Faithful(ReplayAll(done[..i]), done[i].a, done[i].obs, id)
  }

  // --- the invariant -----------------------------------------------------

  /** The script accounts for the pending work, and was true of the map the
      transaction began on for every entity that is still fresh. */
  ghost predicate Accounts(rows: Rows, tx: Tx, base: Db, obs: seq<Obs>,
                     buffer: map<Uuid, Entity>, deletes: set<Uuid>, ids: set<Uuid>) {
    && Saved(tx.id, obs) == buffer && Gone(obs) == deletes
    && Mentioned(obs) <= ids
    && forall id :: AllAtMost(RowsOf(rows, Key(tx.tenant, id)), tx.snapshot) ==>
         Faithful(base, Actor(tx.id, tx.tenant), obs, id)
  }

  ghost predicate ScriptOk(rows: Rows, tx: Tx, sc: Script) {
    && Accounts(rows, tx, sc.base, sc.obs, tx.buffer, tx.deletes, tx.readSet + tx.writeSet)
    && (forall sp :: sp in tx.savepoints ==>
          sp in sc.marks &&
          var p := tx.savepoints[sp];
          Accounts(rows, tx, sc.base, sc.marks[sp], p.buffer, p.deletes, p.readSet + p.writeSet))
  }

  ghost predicate BaseOk(s: State, tx: Tx, base: Db) {
    forall k :: Lookup(base, k) == SnapshotAt(RowsOf(Pending(s), k), tx.snapshot)
  }

  /** Commits under way are of open transactions, one commit call for each. */
  predicate Orderly(s: State) {
    && s.marked <= s.active && s.marked <= s.committing
    && (!s.holder.Free? ==> s.holder.tx in s.active && s.holder.tx in s.committing && s.holder.tx !in s.marked)
    && (s.holder.Stamped? && s.holder.tx in s.txs ==> s.txs[s.holder.tx].snapshot < s.holder.stamp)
  }

  /** Once past its conflict check, a commit's undirtied entities are fresh. */
  predicate HolderFresh(w: World) {
    !w.s.holder.Free? && w.s.holder.tx in w.s.txs && w.s.holder.tx in w.dirtied ==>
      var tx := w.s.txs[w.s.holder.tx];
      forall id :: id in tx.readSet + tx.writeSet && Key(tx.tenant, id) !in w.dirtied[w.s.holder.tx] ==>
        AllAtMost(RowsOf(w.s.rows, Key(tx.tenant, id)), tx.snapshot)
  }

  ghost predicate ScriptsOk(s: State, scripts: map<Uuid, Script>)
    requires s.active <= s.txs.Keys
  {
    && scripts.Keys == s.txs.Keys
    && (forall t :: t in s.active ==>
          ScriptOk(s.rows, s.txs[t], scripts[t]) && BaseOk(s, s.txs[t], scripts[t].base))
    && (forall t :: t in s.txs && t !in s.active ==> s.txs[t].closed && s.txs[t].savepoints == map[])
  }

  ghost predicate DoneOk(s: State, done: seq<Unit>) {
    Current(s.rows) == ReplayAll(done) && SerialChain(done)
  }

  ghost predicate SerialInv(tr: Trace) {
    && Inv(tr.w) && Orderly(tr.w.s) && HolderFresh(tr.w)
    && ScriptsOk(tr.w.s, tr.scripts)
    && DoneOk(tr.w.s, tr.done)
  }

  // --- each operation extends its script faithfully ----------------------

  function Ids(tx: Tx): set<Uuid> { tx.readSet + tx.writeSet }

  ghost predicate Tracks(rows: Rows, tx: Tx, base: Db, obs: seq<Obs>) {
    Accounts(rows, tx, base, obs, tx.buffer, tx.deletes, Ids(tx))
  }

  /** The base map answers for the committed rows of `id` at the snapshot. */
  predicate Agrees(rows: Rows, tx: Tx, base: Db, id: Uuid) {
    Lookup(base, Key(tx.tenant, id)) == SnapshotAt(RowsOf(rows, Key(tx.tenant, id)), tx.snapshot)
  }

  lemma TracksRead(rows: Rows, tx: Tx, base: Db, obs: seq<Obs>, id: Uuid)
    requires TxOk(tx) && Tracks(rows, tx, base, obs) && (OwnWork(tx, id) || Agrees(rows, tx, base, id))
    ensures Tracks(rows, AfterGet(tx, id), base, obs + [Read(id, TxView(tx, RowsOf(rows, Key(tx.tenant, id)), id))])
  {
    var o := Read(id, TxView(tx, RowsOf(rows, Key(tx.tenant, id)), id));
    MentionedAppend(obs, o);
    ReplayOverlays(base, Actor(tx.id, tx.tenant), obs, Key(tx.tenant, id));
  }

  lemma TracksWrite(rows: Rows, tx: Tx, base: Db, obs: seq<Obs>, id: Uuid, v: Entity)
    requires TxOk(tx) && Tracks(rows, tx, base, obs)
    ensures Tracks(rows, SaveIn(tx, id, v), base, obs + [Wrote(id, v)])
  {
    MentionedAppend(obs, Wrote(id, v));
  }

  lemma TracksSwap(rows: Rows, tx: Tx, base: Db, obs: seq<Obs>, id: Uuid, v: Entity, expected: Uuid)
    requires TxOk(tx) && Tracks(rows, tx, base, obs) && (OwnWork(tx, id) || Agrees(rows, tx, base, id))
    requires CasAccepts(tx, RowsOf(rows, Key(tx.tenant, id)), id, expected)
    ensures Tracks(rows, SaveIn(tx, id, v), base, obs + [Swapped(id, v, expected)])
  {
    var vs := RowsOf(rows, Key(tx.tenant, id));
    MentionedAppend(obs, Swapped(id, v, expected));
    ReplayOverlays(base, Actor(tx.id, tx.tenant), obs, Key(tx.tenant, id));
    if AllAtMost(vs, tx.snapshot) {
      NothingLaterIsLatest(vs, tx.snapshot);
    }
  }

  lemma TracksDelete(rows: Rows, tx: Tx, base: Db, obs: seq<Obs>, id: Uuid)
    requires TxOk(tx) && Tracks(rows, tx, base, obs) && (id in tx.buffer || Agrees(rows, tx, base, id))
    requires DeleteAccepts(tx, RowsOf(rows, Key(tx.tenant, id)), id)
    ensures Tracks(rows, DeleteIn(tx, id), base,
                   obs + [if id in tx.deletes then RemovedAgain(id) else Removed(id)])
  {
    var vs := RowsOf(rows, Key(tx.tenant, id));
    MentionedAppend(obs, if id in tx.deletes then RemovedAgain(id) else Removed(id));
    ReplayOverlays(base, Actor(tx.id, tx.tenant), obs, Key(tx.tenant, id));
    if AllAtMost(vs, tx.snapshot) {
      NothingLaterIsLatest(vs, tx.snapshot);
    }
  }

  predicate Extends(rows: Rows, rows': Rows) {
    forall k :: k in rows ==> k in rows' && rows[k] <= rows'[k]
  }

  /** Rows only ever grow, so a script that tracked before tracks after. */
  lemma GrowthKeepsScript(rows: Rows, rows': Rows, tx: Tx, sc: Script)
    requires ScriptOk(rows, tx, sc) && Extends(rows, rows')
    ensures ScriptOk(rows', tx, sc)
  {
    forall id | AllAtMost(RowsOf(rows', Key(tx.tenant, id)), tx.snapshot)
      ensures AllAtMost(RowsOf(rows, Key(tx.tenant, id)), tx.snapshot)
    {
      assert RowsOf(rows, Key(tx.tenant, id)) <= RowsOf(rows', Key(tx.tenant, id));
    }
  }

  // --- work on one transaction -------------------------------------------

  lemma ReadKeepsScript(rows: Rows, tx: Tx, sc: Script, id: Uuid)
    requires TxOk(tx) && ScriptOk(rows, tx, sc) && (OwnWork(tx, id) || Agrees(rows, tx, sc.base, id))
    ensures ScriptOk(rows, AfterGet(tx, id), Noted(sc, Read(id, TxView(tx, RowsOf(rows, Key(tx.tenant, id)), id))))
  {
    TracksRead(rows, tx, sc.base, sc.obs, id);
  }

  lemma WriteKeepsScript(rows: Rows, tx: Tx, sc: Script, id: Uuid, v: Entity)
    requires TxOk(tx) && ScriptOk(rows, tx, sc)
    ensures ScriptOk(rows, SaveIn(tx, id, v), Noted(sc, Wrote(id, v)))
  {
    TracksWrite(rows, tx, sc.base, sc.obs, id, v);
  }

  lemma SwapKeepsScript(rows: Rows, tx: Tx, sc: Script, id: Uuid, v: Entity, expected: Uuid)
    requires TxOk(tx) && ScriptOk(rows, tx, sc) && (OwnWork(tx, id) || Agrees(rows, tx, sc.base, id))
    requires CasAccepts(tx, RowsOf(rows, Key(tx.tenant, id)), id, expected)
    ensures ScriptOk(rows, SaveIn(tx, id, v), Noted(sc, Swapped(id, v, expected)))
  {
    TracksSwap(rows, tx, sc.base, sc.obs, id, v, expected);
  }

  lemma DeleteKeepsScript(rows: Rows, tx: Tx, sc: Script, id: Uuid)
    requires TxOk(tx) && ScriptOk(rows, tx, sc) && (id in tx.buffer || Agrees(rows, tx, sc.base, id))
    requires DeleteAccepts(tx, RowsOf(rows, Key(tx.tenant, id)), id)
    ensures ScriptOk(rows, DeleteIn(tx, id), Noted(sc, if id in tx.deletes then RemovedAgain(id) else Removed(id)))
  {
    TracksDelete(rows, tx, sc.base, sc.obs, id);
  }

  lemma RewindKeepsScript(rows: Rows, tx: Tx, spare: Spare, sc: Script, sp: Uuid, ids: set<Uuid>)
    requires ScriptOk(rows, tx, sc) && sp in tx.savepoints
    requires forall id :: id in ids ==> Reslices(tx, spare, tx.savepoints[sp], id)
    ensures ScriptOk(rows, RestoredSoFar(tx, spare, sp, ids), sc.(obs := sc.marks[sp]))
    ensures ScriptOk(rows, RestoredSoFar(tx, spare, sp, ids).(savepoints := tx.savepoints - {sp}),
                     sc.(obs := sc.marks[sp]))
  {
  }

  lemma OperationKeepsScript(s: State, sc: Script, e: Event)
    requires e.Get? || e.Save? || e.CompareAndSave? || e.Delete?
    requires CanWork(s, e) && TxOk(s.txs[e.t]) && ScriptOk(s.rows, s.txs[e.t], sc)
    requires s.holder.Free? ==> Agrees(s.rows, s.txs[e.t], sc.base, e.id)
    ensures ScriptOk(s.rows, Worked(s.txs[e.t], SpareOf(s, e.t), e), NextScript(s, sc, e))
  {
    var tx := s.txs[e.t];
    match e {
      case Get(_, id) => ReadKeepsScript(s.rows, tx, sc, id);
      case Save(_, id, v) => WriteKeepsScript(s.rows, tx, sc, id, v);
      case CompareAndSave(_, id, v, x) => SwapKeepsScript(s.rows, tx, sc, id, v, x);
      case Delete(_, id) => DeleteKeepsScript(s.rows, tx, sc, id);
    }
  }

  lemma SavepointKeepsScript(s: State, sc: Script, e: Event)
    requires TxWork(e) && !(e.Get? || e.Save? || e.CompareAndSave? || e.Delete?)
    requires CanWork(s, e) && ScriptOk(s.rows, s.txs[e.t], sc)
    ensures ScriptOk(s.rows, Worked(s.txs[e.t], SpareOf(s, e.t), e), NextScript(s, sc, e))
  {
    var tx, spare := s.txs[e.t], SpareOf(s, e.t);
    match e {
      case RollbackToSavepoint(_, sp) => RewindKeepsScript(s.rows, tx, spare, sc, sp, tx.superseded.Keys);
      case RollbackPanics(_, sp, seen) => RewindKeepsScript(s.rows, tx, spare, sc, sp, seen);
      case _ =>
    }
  }

  /** Work on one open transaction, its script following along. */
  lemma ReworkKeepsScripts(s: State, scripts: map<Uuid, Script>, t: Uuid, tx: Tx, spare: map<Uuid, Spare>, sc: Script)
    requires TxsOk(s) && ScriptsOk(s, scripts) && t in s.active && Open(s, t)
    requires tx.snapshot == s.txs[t].snapshot && sc.base == scripts[t].base && ScriptOk(s.rows, tx, sc)
    ensures ScriptsOk(s.(txs := s.txs[t := tx], spare := spare), scripts[t := sc])
  {
    var s' := s.(txs := s.txs[t := tx], spare := spare);
    assert Pending(s') == Pending(s);
    forall x | x in s'.active ensures BaseOk(s', s'.txs[x], scripts[t := sc][x].base) {
      assert BaseOk(s, s.txs[x], scripts[x].base);
    }
  }

  lemma WorkKeepsItsScript(s: State, scripts: map<Uuid, Script>, e: Event)
    requires TxsOk(s) && ScriptsOk(s, scripts) && TxWork(e) && CanWork(s, e)
    ensures e.t in s.active
    ensures ScriptOk(s.rows, Worked(s.txs[e.t], SpareOf(s, e.t), e), NextScript(s, scripts[e.t], e))
  {
    assert BaseOk(s, s.txs[e.t], scripts[e.t].base);
    if e.Get? || e.Save? || e.CompareAndSave? || e.Delete? {
      OperationKeepsScript(s, scripts[e.t], e);
    } else {
      SavepointKeepsScript(s, scripts[e.t], e);
    }
  }

  lemma BaseStays(s: State, sc: Script, e: Event)
    requires TxWork(e) && CanWork(s, e) && TxOk(s.txs[e.t])
    requires forall sp :: sp in s.txs[e.t].savepoints ==> sp in sc.marks
    ensures NextScript(s, sc, e).base == sc.base
    ensures Open(s, e.t) && Worked(s.txs[e.t], SpareOf(s, e.t), e).snapshot == s.txs[e.t].snapshot
  {
    TxWorkReworks(s, e);
  }

  lemma WorkKeepsScripts(s: State, scripts: map<Uuid, Script>, e: Event)
    requires TxsOk(s) && ScriptsOk(s, scripts) && TxWork(e) && CanWork(s, e)
    ensures e.t in s.active
    ensures ScriptsOk(AfterWork(s, e), scripts[e.t := NextScript(s, scripts[e.t], e)])
  {
    WorkKeepsItsScript(s, scripts, e);
    BaseStays(s, scripts[e.t], e);
    var s' := AfterWork(s, e);
    ReworkKeepsScripts(s, scripts, e.t, s'.txs[e.t], s'.spare, NextScript(s, scripts[e.t], e));
  }

  // --- the manager's own events ------------------------------------------

  /** Events that only shrink the tables or move the lock: rows, and the
      transactions still open, are untouched. */
  lemma TablesKeepScripts(s: State, s': State, scripts: map<Uuid, Script>)
    requires TxsOk(s) && s'.active <= s.active && ScriptsOk(s, scripts)
    requires s'.rows == s.rows && s'.txs.Keys == s.txs.Keys
    requires forall t :: t in s'.active ==> s'.txs[t] == s.txs[t]
    requires forall t :: t in s.txs && t !in s'.active ==> s'.txs[t].closed && s'.txs[t].savepoints == map[]
    requires forall t, k :: t in s'.active ==>
      SnapshotAt(RowsOf(Pending(s'), k), s.txs[t].snapshot) == SnapshotAt(RowsOf(Pending(s), k), s.txs[t].snapshot)
    ensures ScriptsOk(s', scripts)
  {
    forall t | t in s'.active ensures BaseOk(s', s'.txs[t], scripts[t].base) {
      assert BaseOk(s, s.txs[t], scripts[t].base);
    }
  }

  lemma StampKeepsScripts(s: State, t: Uuid, stamp: int, scripts: map<Uuid, Script>)
    requires TxsOk(s) && ScriptsOk(s, scripts) && s.holder == Checked(t) && stamp > s.floor
    ensures ScriptsOk(StampTaken(s, t, stamp), scripts)
  {
    var s' := StampTaken(s, t, stamp);
    forall x, k | x in s'.active
      ensures SnapshotAt(RowsOf(Pending(s'), k), s.txs[x].snapshot) ==
              SnapshotAt(RowsOf(Pending(s), k), s.txs[x].snapshot)
    {
      StampKeepsSnapshot(s, t, stamp, x, k);
    }
    TablesKeepScripts(s, s', scripts);
  }

  lemma UndoneKeepsScripts(s: State, t: Uuid, scripts: map<Uuid, Script>)
    requires TxsOk(s) && ScriptsOk(s, scripts) && t in s.txs && (s.holder.Free? || s.holder.tx != t)
    ensures ScriptsOk(Undone(s, t), scripts)
  {
    assert Pending(Undone(s, t)) == Pending(s);
    TablesKeepScripts(s, Undone(s, t), scripts);
  }

  lemma RefusedKeepsScripts(s: State, t: Uuid, scripts: map<Uuid, Script>)
    requires TxsOk(s) && ScriptsOk(s, scripts) && t in s.txs && s.holder.Free?
    ensures ScriptsOk(Refused(s, t), scripts)
  {
    TablesKeepScripts(s, Refused(s, t), scripts);
  }

  lemma MarkKeepsScripts(s: State, t: Uuid, scripts: map<Uuid, Script>)
    requires TxsOk(s) && ScriptsOk(s, scripts)
    ensures ScriptsOk(s.(committing := s.committing + {t}, marked := s.marked + {t}), scripts)
  {
    TablesKeepScripts(s, s.(committing := s.committing + {t}, marked := s.marked + {t}), scripts);
  }

  lemma PassedKeepsScripts(s: State, t: Uuid, scripts: map<Uuid, Script>)
    requires TxsOk(s) && ScriptsOk(s, scripts) && s.holder.Free?
    ensures ScriptsOk(Passed(s, t), scripts)
  {
    TablesKeepScripts(s, Passed(s, t), scripts);
  }

  lemma CurrentLookup(rows: Rows, k: Key)
    ensures Lookup(Current(rows), k) == Latest(RowsOf(rows, k))
  {
  }

  /** The map a transaction begins on is its snapshot. */
  lemma BeginBase(s: State, snapshot: int, k: Key)
    requires RowsFit(s) && s.floor <= snapshot
    ensures Lookup(Current(Pending(s)), k) == SnapshotAt(RowsOf(Pending(s), k), snapshot)
  {
    CurrentLookup(Pending(s), k);
    if s.holder.Stamped? && s.holder.tx in s.txs {
      FlushExtends(s.rows, s.txs[s.holder.tx], s.holder.stamp, k);
    }
    assert AllAtMost(RowsOf(s.rows, k), s.floor);
    assert AllAtMost(RowsOf(Pending(s), k), snapshot);
    NothingLaterIsLatest(RowsOf(Pending(s), k), snapshot);
  }

  lemma BeginKeepsScripts(s: State, scripts: map<Uuid, Script>, t: Uuid, tenant: Uuid, now: int)
    requires TxsOk(s) && RowsFit(s) && ScriptsOk(s, scripts) && t !in s.txs
    ensures ScriptsOk(Begun(s, t, tenant, now), scripts[t := Script(Current(Pending(s)), [], map[])])
  {
    var s', scripts' := Begun(s, t, tenant, now), scripts[t := Script(Current(Pending(s)), [], map[])];
    assert Pending(s') == Pending(s);
    forall k ensures Lookup(scripts'[t].base, k) == SnapshotAt(RowsOf(Pending(s'), k), s'.txs[t].snapshot) {
      BeginBase(s, s'.txs[t].snapshot, k);
    }
    forall x | x in s'.active
      ensures ScriptOk(s'.rows, s'.txs[x], scripts'[x]) && BaseOk(s', s'.txs[x], scripts'[x].base)
    {
      if x != t {
        assert BaseOk(s, s.txs[x], scripts[x].base);
      }
    }
  }

  /** Rows that grow past every open snapshot leave all scripts as they are. */
  lemma RowsGrowKeepScripts(s: State, s': State, scripts: map<Uuid, Script>)
    requires TxsOk(s) && ScriptsOk(s, scripts)
    requires Extends(s.rows, s'.rows) && s'.txs.Keys == s.txs.Keys && s'.active <= s.active
    requires forall t :: t in s'.active ==> s'.txs[t] == s.txs[t]
    requires forall t :: t in s.txs && t !in s'.active ==> s'.txs[t].closed && s'.txs[t].savepoints == map[]
    requires forall t, k :: t in s'.active ==>
      SnapshotAt(RowsOf(Pending(s'), k), s.txs[t].snapshot) == SnapshotAt(RowsOf(Pending(s), k), s.txs[t].snapshot)
    ensures ScriptsOk(s', scripts)
  {
    forall t | t in s'.active
      ensures ScriptOk(s'.rows, s'.txs[t], scripts[t]) && BaseOk(s', s'.txs[t], scripts[t].base)
    {
      GrowthKeepsScript(s.rows, s'.rows, s.txs[t], scripts[t]);
      assert BaseOk(s, s.txs[t], scripts[t].base);
    }
  }

  /** Appending a unit that is faithful to the current map extends the chain. */
  lemma ChainExtends(s: State, s': State, done: seq<Unit>, u: Unit)
    requires DoneOk(s, done)
    requires forall id :: id !in u.stale ==> Faithful(Current(s.rows), u.a, u.obs, id)
    requires forall k :: Latest(RowsOf(s'.rows, k)) == Lookup(Replay(Current(s.rows), u.a, u.obs), k)
    ensures DoneOk(s', done + [u])
  {
    var all := done + [u];
    assert all[..|done|] == done;
    forall i, id | 0 <= i < |all| && id !in all[i].stale
      ensures Faithful(ReplayAll(all[..i]), all[i].a, all[i].obs, id)
    {
      if i < |done| {
        assert all[..i] == done[..i];
      }
    }
    forall k ensures Lookup(Current(s'.rows), k) == Lookup(ReplayAll(all), k) {
      CurrentLookup(s'.rows, k);
    }
    SameLookups(Current(s'.rows), ReplayAll(all));
  }

  lemma SameLookups(a: Db, b: Db)
    requires forall k :: Lookup(a, k) == Lookup(b, k)
    ensures a == b
  {
    forall k ensures k in a <==> k in b {
      assert Lookup(a, k) == Lookup(b, k);
    }
    forall k | k in a ensures a[k] == b[k] {
      assert Lookup(a, k) == Lookup(b, k);
    }
  }

  lemma DirectKeepsScripts(s: State, k: Key, r: Row, scripts: map<Uuid, Script>)
    requires TxsOk(s) && ScriptsOk(s, scripts) && s.holder.Free? && r.stamp > s.floor
    ensures ScriptsOk(WrittenDirectly(s, k, r), scripts)
  {
    var s' := WrittenDirectly(s, k, r);
    forall t, x | t in s'.active
      ensures SnapshotAt(RowsOf(Pending(s'), x), s.txs[t].snapshot) ==
              SnapshotAt(RowsOf(Pending(s), x), s.txs[t].snapshot)
    {
      DirectKeepsSnapshot(s, k, r, t, x);
    }
    RowsGrowKeepScripts(s, s', scripts);
  }

  /** A direct write is a unit of its own, and true of the map it writes to. */
  lemma DirectKeepsDone(s: State, k: Key, r: Row, done: seq<Unit>, u: Unit)
    requires DoneOk(s, done) && s.holder.Free?
    requires if r.entity.None? then u == DeletedUnit(k) && Latest(RowsOf(s.rows, k)).Some?
             else u == SavedUnit(k, r.entity.value)
    ensures DoneOk(WrittenDirectly(s, k, r), done + [u])
  {
    var db := Current(s.rows);
    assert u.obs[..0] == [];
    assert Replay(db, u.a, u.obs[..0]) == db;
    CurrentLookup(s.rows, k);
    assert k == Key(k.tenant, k.id);
    assert Allowed(db, u.a, u.obs[0]);
    assert forall id :: Faithful(db, u.a, u.obs, id);
    forall x ensures Latest(RowsOf(WrittenDirectly(s, k, r).rows, x)) == Lookup(Replay(db, u.a, u.obs), x) {
      CurrentLookup(s.rows, x);
      assert x == Key(x.tenant, x.id);
    }
    ChainExtends(s, WrittenDirectly(s, k, r), done, u);
  }

  // --- the commit --------------------------------------------------------

  /** What the flush publishes is the script replayed on the current map. */
  lemma CommitReplays(rows: Rows, tx: Tx, stamp: int, obs: seq<Obs>, k: Key)
    requires WorkOk(tx.id, tx.buffer, tx.writeSet, tx.deletes)
    requires Saved(tx.id, obs) == tx.buffer && Gone(obs) == tx.deletes
    ensures Latest(RowsOf(Flush(rows, tx, stamp), k)) ==
            Lookup(Replay(Current(rows), Actor(tx.id, tx.tenant), obs), k)
  {
    FlushPublishes(rows, tx, stamp, k);
    ReplayOverlays(Current(rows), Actor(tx.id, tx.tenant), obs, k);
    CurrentLookup(rows, k);
  }

  /** A commit's script is true of the map it commits onto, entity by entity. */
  lemma CommitIsFaithful(w: World, sc: Script, id: Uuid)
    requires TxsOk(w.s) && Orderly(w.s) && HolderFresh(w) && w.s.holder.Stamped? && w.s.holder.tx in w.dirtied
    requires ScriptOk(w.s.rows, w.s.txs[w.s.holder.tx], sc)
    requires BaseOk(w.s, w.s.txs[w.s.holder.tx], sc.base)
    requires id !in Stale(w, w.s.holder.tx)
    ensures Faithful(Current(w.s.rows), Actor(w.s.holder.tx, w.s.txs[w.s.holder.tx].tenant), sc.obs, id)
  {
    var s, t := w.s, w.s.holder.tx;
    var tx := s.txs[t];
    var k := Key(tx.tenant, id);
    assert Tracks(s.rows, tx, sc.base, sc.obs);
    if id in Ids(tx) {
      assert k !in w.dirtied[t];
      FlushExtends(s.rows, tx, s.holder.stamp, k);
      LaterRowsInvisible(RowsOf(s.rows, k), RowsOf(Pending(s), k), tx.snapshot);
      NothingLaterIsLatest(RowsOf(s.rows, k), tx.snapshot);
      CurrentLookup(s.rows, k);
      FaithfulTransfers(sc.base, Current(s.rows), Actor(t, tx.tenant), sc.obs, id);
    } else {
      UnmentionedIsFaithful(Current(s.rows), Actor(t, tx.tenant), sc.obs, id);
    }
  }

  lemma RecordKeepsScripts(s: State, t: Uuid, scripts: map<Uuid, Script>)
    requires TxsOk(s) && ScriptsOk(s, scripts) && Recording(s, t)
    ensures ScriptsOk(Recorded(s, t), scripts)
  {
    var s' := Recorded(s, t);
    assert Pending(s') == Pending(s);
    forall k | k in s.rows ensures k in s'.rows && s.rows[k] <= s'.rows[k] {
      FlushExtends(s.rows, s.txs[t], s.holder.stamp, k);
    }
    RowsGrowKeepScripts(s, s', scripts);
  }

  lemma RecordKeepsDone(tr: Trace, t: Uuid)
    requires SerialInv(tr) && Recording(tr.w.s, t)
    ensures t in tr.scripts && t in tr.w.dirtied
    ensures DoneOk(Recorded(tr.w.s, t), tr.done + [CommittedUnit(tr.w, t, tr.scripts[t])])
  {
    var s, sc := tr.w.s, tr.scripts[t];
    var u := CommittedUnit(tr.w, t, sc);
    assert ScriptOk(s.rows, s.txs[t], sc) && BaseOk(s, s.txs[t], sc.base);
    forall id | id !in u.stale ensures Faithful(Current(s.rows), u.a, u.obs, id) {
      CommitIsFaithful(tr.w, sc, id);
    }
    forall k ensures Latest(RowsOf(Recorded(s, t).rows, k)) == Lookup(Replay(Current(s.rows), u.a, u.obs), k) {
      CommitReplays(s.rows, s.txs[t], s.holder.stamp, sc.obs, k);
    }
    ChainExtends(s, Recorded(s, t), tr.done, u);
  }

  // --- every step --------------------------------------------------------

  lemma StepKeepsOrderly(s: State, e: Event)
    requires TxsOk(s) && Orderly(s) && Enabled(s, e) && (e.Rollback? ==> e.t !in s.marked)
    ensures Orderly(Next(s, e))
  {
  }

  lemma StepKeepsHolderFresh(w: World, e: Event)
    requires Inv(w) && Orderly(w.s) && HolderFresh(w) && Enabled(w.s, e)
    ensures HolderFresh(Step(w, e))
  {
    if e.CommitCheck? && !Conflicts(w.s.log, Baseline(w.s, e.t), w.s.txs[e.t]) {
      PassedIsFresh(w, e.t);
    } else {
      if TxWork(e) {
        TxWorkReworks(w.s, e);
      } else {
        OthersLeaveHolder(w, e);
      }
      if !Step(w, e).s.holder.Free? {
        HolderIsLeftAlone(w, Step(w, e));
      }
    }
  }

  lemma PassedIsFresh(w: World, t: Uuid)
    requires Inv(w) && Orderly(w.s) && Enabled(w.s, CommitCheck(t))
    requires !Conflicts(w.s.log, Baseline(w.s, t), w.s.txs[t])
    ensures HolderFresh(w.(s := Passed(w.s, t)))
  {
    var tx := w.s.txs[t];
    forall id | id in tx.readSet + tx.writeSet && Key(tx.tenant, id) !in w.dirtied[t]
      ensures AllAtMost(RowsOf(w.s.rows, Key(tx.tenant, id)), tx.snapshot)
    {
      PassedCheckIsFresh(w, t, id);
    }
  }

  /** Nothing of the holder's that matters has changed. */
  lemma HolderIsLeftAlone(w: World, w': World)
    requires HolderFresh(w) && w'.s.rows == w.s.rows
    requires !w'.s.holder.Free? ==>
      !w.s.holder.Free? && w'.s.holder.tx == w.s.holder.tx && w.s.holder.tx in w.s.txs && w.s.holder.tx in w.dirtied &&
      w'.s.holder.tx in w'.s.txs && w'.s.txs[w.s.holder.tx] == w.s.txs[w.s.holder.tx] &&
      w'.s.holder.tx in w'.dirtied && w'.dirtied[w.s.holder.tx] == w.dirtied[w.s.holder.tx]
    ensures HolderFresh(w')
  {
  }

  lemma OthersLeaveHolder(w: World, e: Event)
    requires TxsOk(w.s) && w.dirtied.Keys == w.s.txs.Keys && Enabled(w.s, e) && !TxWork(e)
    requires e.CommitCheck? ==> Conflicts(w.s.log, Baseline(w.s, e.t), w.s.txs[e.t])
    ensures
      var w' := Step(w, e);
      !w'.s.holder.Free? ==>
        && w'.s.rows == w.s.rows && !w.s.holder.Free? && w'.s.holder.tx == w.s.holder.tx
        && w'.s.txs[w.s.holder.tx] == w.s.txs[w.s.holder.tx]
        && w'.s.holder.tx in w'.dirtied && w'.dirtied[w.s.holder.tx] == w.dirtied[w.s.holder.tx]
  {
  }

  lemma AdvanceKeepsScripts(tr: Trace, e: Event)
    requires SerialInv(tr) && CanStep(tr, e)
    ensures Next(tr.w.s, e).active <= Next(tr.w.s, e).txs.Keys && ScriptsOk(Next(tr.w.s, e), NextScripts(tr, e))
  {
    var s, scripts := tr.w.s, tr.scripts;
    if TxWork(e) {
      WorkKeepsScripts(s, scripts, e);
    } else if e.Begin? {
      BeginKeepsScripts(s, scripts, e.t, e.tenant, e.now);
    } else if e.DirectSave? {
      DirectKeepsScripts(s, e.k, SavedRow(RowsOf(s.rows, e.k), e.e, e.e.txId, NextStamp(s.floor, e.now)), scripts);
    } else if e.DirectDelete? {
      DirectKeepsScripts(s, e.k, Tombstone(RowsOf(s.rows, e.k), NO_ID, NextStamp(s.floor, e.now)), scripts);
    } else {
      CommitKeepsScripts(s, scripts, e);
    }
  }

  lemma CommitKeepsScripts(s: State, scripts: map<Uuid, Script>, e: Event)
    requires TxsOk(s) && Orderly(s) && ScriptsOk(s, scripts) && Enabled(s, e)
    requires e.CommitMark? || e.CommitCheck? || e.CommitStamp? || e.CommitRecord? || e.Rollback?
    ensures Next(s, e).active <= Next(s, e).txs.Keys && ScriptsOk(Next(s, e), scripts)
  {
    if e.CommitMark? {
      MarkKeepsScripts(s, e.t, scripts);
    } else if e.Rollback? {
      UndoneKeepsScripts(s, e.t, scripts);
    } else if e.CommitStamp? {
      StampKeepsScripts(s, e.t, NextStamp(s.floor, e.now), scripts);
    } else {
      LockKeepsScripts(s, scripts, e);
    }
  }

  lemma LockKeepsScripts(s: State, scripts: map<Uuid, Script>, e: Event)
    requires TxsOk(s) && Orderly(s) && ScriptsOk(s, scripts) && Enabled(s, e) && (e.CommitCheck? || e.CommitRecord?)
    ensures Next(s, e).active <= Next(s, e).txs.Keys && ScriptsOk(Next(s, e), scripts)
  {
    if e.CommitRecord? {
      RecordKeepsScripts(s, e.t, scripts);
    } else if Conflicts(s.log, Baseline(s, e.t), s.txs[e.t]) {
      RefusedKeepsScripts(s, e.t, scripts);
    } else {
      PassedKeepsScripts(s, e.t, scripts);
    }
  }

  lemma RowsStay(s: State, e: Event)
    requires Enabled(s, e) && !e.CommitRecord? && !e.DirectSave? && !e.DirectDelete?
    ensures Next(s, e).rows == s.rows
  {
  }

  lemma DirectStepKeepsDone(s: State, e: Event, done: seq<Unit>)
    requires DoneOk(s, done) && Enabled(s, e) && (e.DirectSave? || e.DirectDelete?)
    ensures DoneOk(Next(s, e), done + [if e.DirectSave? then SavedUnit(e.k, e.e) else DeletedUnit(e.k)])
  {
    var vs, stamp := RowsOf(s.rows, e.k), NextStamp(s.floor, e.now);
    if e.DirectSave? {
      DirectKeepsDone(s, e.k, SavedRow(vs, e.e, e.e.txId, stamp), done, SavedUnit(e.k, e.e));
    } else {
      DirectKeepsDone(s, e.k, Tombstone(vs, NO_ID, stamp), done, DeletedUnit(e.k));
    }
  }

  lemma AdvanceKeepsDone(tr: Trace, e: Event)
    requires SerialInv(tr) && CanStep(tr, e)
    ensures DoneOk(Next(tr.w.s, e), NextDone(tr, e))
  {
    if e.CommitRecord? {
      RecordKeepsDone(tr, e.t);
    } else if e.DirectSave? || e.DirectDelete? {
      DirectStepKeepsDone(tr.w.s, e, tr.done);
    } else {
      RowsStay(tr.w.s, e);
    }
  }

  lemma AdvanceKeepsSerial(tr: Trace, e: Event)
    requires SerialInv(tr) && CanStep(tr, e)
    ensures SerialInv(Advance(tr, e))
  {
    StepKeepsInv(tr.w, e);
    StepKeepsOrderly(tr.w.s, e);
    StepKeepsHolderFresh(tr.w, e);
    AdvanceKeepsScripts(tr, e);
    AdvanceKeepsDone(tr, e);
  }

  ghost predicate Leads(tr: Trace, es: seq<Event>, tr': Trace)
    decreases |es|
  {
    if es == [] then tr == tr'
    else CanStep(tr, es[0]) && Leads(Advance(tr, es[0]), es[1..], tr')
  }

  /** Runs are not restricted beyond what the system enables, but for that rollback. */
  lemma CanStepExactlyWhen(tr: Trace, e: Event)
    requires SerialInv(tr)
    ensures CanStep(tr, e) <==> Enabled(tr.w.s, e) && (e.Rollback? ==> e.t !in tr.w.s.marked)
  {
    forall t, sp | t in tr.w.s.txs && sp in tr.w.s.txs[t].savepoints ensures sp in tr.scripts[t].marks {
      assert t in tr.w.s.active;
      assert ScriptOk(tr.w.s.rows, tr.w.s.txs[t], tr.scripts[t]);
    }
  }

  lemma {:induction false} RunKeepsSerial(tr: Trace, es: seq<Event>, tr': Trace)
    requires SerialInv(tr) && Leads(tr, es, tr')
    ensures SerialInv(tr')
    decreases |es|
  {
    if es != [] {
      AdvanceKeepsSerial(tr, es[0]);
      RunKeepsSerial(Advance(tr, es[0]), es[1..], tr');
    }
  }

  /** Serial equivalence of every run from the empty store: the committed state
      is the committed units replayed one after the other in commit order on a
      plain map, and whatever a unit observed of an entity that no write outside a
      transaction touched meanwhile is what that serial execution would have shown. */
  lemma RunsAreSerial(es: seq<Event>, tr: Trace)
    requires Leads(EMPTY_TRACE, es, tr)
    ensures Current(tr.w.s.rows) == ReplayAll(tr.done)
    ensures forall i, j :: 0 <= i < |tr.done| && 0 <= j < |tr.done[i].obs| &&
                           tr.done[i].obs[j].id !in tr.done[i].stale ==>
              Allowed(Replay(ReplayAll(tr.done[..i]), tr.done[i].a, tr.done[i].obs[..j]),
                      tr.done[i].a, tr.done[i].obs[j])
  {
    RunKeepsSerial(EMPTY_TRACE, es, tr);
    forall i, j | 0 <= i < |tr.done| && 0 <= j < |tr.done[i].obs| && tr.done[i].obs[j].id !in tr.done[i].stale
      ensures Allowed(Replay(ReplayAll(tr.done[..i]), tr.done[i].a, tr.done[i].obs[..j]),
                      tr.done[i].a, tr.done[i].obs[j])
    {
      FaithfulAt(ReplayAll(tr.done[..i]), tr.done[i].a, tr.done[i].obs, j);
    }
  }
}
