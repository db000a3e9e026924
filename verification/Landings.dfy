/** How often a compare-and-save can land on one version token, over every run and with
    writes outside transactions included. */
module Landings {
  import opened Json
  import opened Versions
  import opened Transactions
  import opened TxSystem
  import opened Isolation
  import opened Serial
  import opened IfMatch
  import Witnesses

  // --- claims: first changes by a swap -----------------------------------

  /** The token named by the script's first change of `id`, if that is a swap. */
  function FirstToken(t: Uuid, obs: seq<Obs>, id: Uuid): Option<Uuid> {
    if obs == [] then None
    else
      var prefix, o := obs[..|obs| - 1], obs[|obs| - 1];
      if id in Saved(t, prefix) || id in Gone(prefix) then FirstToken(t, prefix, id)
      else if o.Swapped? && o.id == id then Some(o.expected)
      else None
  }

  lemma {:induction false} ClaimIsWritten(t: Uuid, obs: seq<Obs>, id: Uuid)
    ensures FirstToken(t, obs, id).Some? ==> id in Saved(t, obs) || id in Gone(obs)
  {
    if obs != [] {
      ClaimIsWritten(t, obs[..|obs| - 1], id);
    }
  }

  lemma {:induction false} SwapsFirstHasToken(u: Unit, k: Key, token: Uuid, j: nat)
    requires j < |u.obs| && u.obs[j].Swapped? && u.obs[j].id == k.id && u.obs[j].expected == token
    requires k.id !in Saved(u.a.t, u.obs[..j]) && k.id !in Gone(u.obs[..j])
    ensures FirstToken(u.a.t, u.obs, k.id) == Some(token)
    decreases |u.obs|
  {
    var prefix := u.obs[..|u.obs| - 1];
    if j < |u.obs| - 1 {
      assert prefix[..j] == u.obs[..j];
      SwapsFirstHasToken(u.(obs := prefix), k, token, j);
      ClaimIsWritten(u.a.t, prefix, k.id);
    }
  }

  lemma FirstTokenAppend(t: Uuid, obs: seq<Obs>, o: Obs, id: Uuid)
    ensures FirstToken(t, obs + [o], id) ==
            if id in Saved(t, obs) || id in Gone(obs) then FirstToken(t, obs, id)
            else if o.Swapped? && o.id == id then Some(o.expected)
            else None
  {
    assert (obs + [o])[..|obs|] == obs;
  }

  // --- grounds: the version a swap saw -----------------------------------

  /** The newest version of `k` after these units carries `token`. */
  predicate Carries(done: seq<Unit>, k: Key, token: Uuid) {
    var w := LastWriter(done, k);
    w >= 0 && done[w].a.t == token
  }

  /** No transaction has written `k` from unit `n` on. */
  predicate NoneSince(done: seq<Unit>, n: nat, k: Key) {
    forall m :: n <= m < |done| && !done[m].direct ==> !Writes(done[m], k)
  }

  predicate GroundedAt(done: seq<Unit>, n: nat, k: Key, token: Uuid) {
    n <= |done| && Carries(done[..n], k, token) && NoneSince(done, n, k)
  }

  /** Some version of `k` carried `token`, and no transaction has written `k` since. */
  ghost predicate Grounded(done: seq<Unit>, k: Key, token: Uuid) {
    exists n: nat :: GroundedAt(done, n, k, token)
  }

  lemma GroundsStay(done: seq<Unit>, u: Unit, k: Key, token: Uuid)
    requires Grounded(done, k, token) && (u.direct || !Writes(u, k))
    ensures Grounded(done + [u], k, token)
  {
    var n: nat :| GroundedAt(done, n, k, token);
    assert (done + [u])[..n] == done[..n];
    assert GroundedAt(done + [u], n, k, token);
  }

  /** A swap that is accepted on committed rows has its grounds. */
  lemma SwapHasGrounds(rows: Rows, done: seq<Unit>, k: Key, token: Uuid)
    requires Current(rows) == ReplayAll(done) && token != NO_ID && CurrentTxId(Latest(RowsOf(rows, k))) == token
    ensures Grounded(done, k, token)
  {
    CurrentLookup(rows, k);
    TokenIsLastWriter(done, k);
    assert done[..|done|] == done;
    assert GroundedAt(done, |done|, k, token);
  }

  // --- the invariant -----------------------------------------------------

  /** A log entry will make `t` conflict on `k`. */
  predicate Guarded(s: State, t: Uuid, k: Key)
    requires t in s.txs
  {
    exists i :: 0 <= i < |s.log| && Guards(s, s.log[i], t, k)
  }

  /** A script of `t` that claims a version of `k` has its grounds, or `t` will conflict;
      and it did not claim it while a commit it began behind was being recorded. */
  ghost predicate ClaimOk(s: State, done: seq<Unit>, t: Uuid, obs: seq<Obs>, k: Key)
    requires t in s.txs
  {
    var c := FirstToken(t, obs, k.id);
    c.Some? ==>
      && (Grounded(done, k, c.value) || Guarded(s, t, k))
      && (s.holder.Stamped? && s.holder.tx != t ==> s.txs[t].snapshot < s.holder.stamp)
  }

  /** The script of an open transaction as it stands, or as a savepoint remembers it. */
  predicate Draft(tx: Tx, sc: Script, obs: seq<Obs>) {
    obs == sc.obs || exists sp :: sp in tx.savepoints && sp in sc.marks && sc.marks[sp] == obs
  }

  ghost predicate DraftsOk(s: State, done: seq<Unit>, t: Uuid, sc: Script, k: Key)
    requires t in s.txs
  {
    forall obs :: Draft(s.txs[t], sc, obs) ==> ClaimOk(s, done, t, obs, k)
  }

  /** The commit that holds the lock has passed its check, so its claim has grounds. */
  ghost predicate HolderGrounded(s: State, done: seq<Unit>, scripts: map<Uuid, Script>, k: Key) {
    !s.holder.Free? && s.holder.tx in s.txs && s.holder.tx in scripts && s.txs[s.holder.tx].tenant == k.tenant ==>
      var c := FirstToken(s.holder.tx, scripts[s.holder.tx].obs, k.id);
      c.Some? ==> Grounded(done, k, c.value)
  }

  ghost predicate OpenClaims(s: State, done: seq<Unit>, scripts: map<Uuid, Script>, k: Key) {
    forall t :: t in s.active && t in s.txs && t in scripts && s.txs[t].tenant == k.tenant ==>
      DraftsOk(s, done, t, scripts[t], k)
  }

  /** Every committed transaction whose first change of `k` is a swap had its grounds. */
  ghost predicate LandedOk(done: seq<Unit>, k: Key) {
    forall j :: 0 <= j < |done| && done[j].a.tenant == k.tenant ==>
      var c := FirstToken(done[j].a.t, done[j].obs, k.id);
      c.Some? ==> !done[j].direct && Grounded(done[..j], k, c.value)
  }

  ghost predicate ClaimsInv(tr: Trace, k: Key) {
    && OpenClaims(tr.w.s, tr.done, tr.scripts, k)
    && HolderGrounded(tr.w.s, tr.done, tr.scripts, k)
    && LandedOk(tr.done, k)
  }

  lemma LandedGrows(done: seq<Unit>, u: Unit, k: Key)
    requires LandedOk(done, k)
    requires u.a.tenant == k.tenant ==>
      var c := FirstToken(u.a.t, u.obs, k.id);
      c.Some? ==> !u.direct && Grounded(done, k, c.value)
    ensures LandedOk(done + [u], k)
  {
    var all := done + [u];
    forall j | 0 <= j < |all| && all[j].a.tenant == k.tenant && FirstToken(all[j].a.t, all[j].obs, k.id).Some?
      ensures !all[j].direct && Grounded(all[..j], k, FirstToken(all[j].a.t, all[j].obs, k.id).value)
    {
      assert all[..j] == if j < |done| then done[..j] else done;
    }
  }

  // --- work on a transaction ---------------------------------------------

  /** A draft after work on the transaction is an earlier draft, or the script with one
      more observation. */
  lemma DraftsAfter(s: State, sc: Script, e: Event, obs: seq<Obs>)
    requires TxWork(e) && CanWork(s, e) && (forall sp :: sp in s.txs[e.t].savepoints ==> sp in sc.marks)
    requires Draft(Worked(s.txs[e.t], SpareOf(s, e.t), e), NextScript(s, sc, e), obs)
    ensures Draft(s.txs[e.t], sc, obs) || (Operation(e) && obs == NextScript(s, sc, e).obs)
  {
  }

  predicate Operation(e: Event) { e.Get? || e.Save? || e.CompareAndSave? || e.Delete? }

  lemma OperationKeepsClaim(s: State, done: seq<Unit>, sc: Script, e: Event, k: Key)
    requires Operation(e) && CanWork(s, e) && s.txs[e.t].tenant == k.tenant && s.txs[e.t].id == e.t
    requires ScriptOk(s.rows, s.txs[e.t], sc) && DoneOk(s, done) && ClaimOk(s, done, e.t, sc.obs, k)
    ensures ClaimOk(s, done, e.t, NextScript(s, sc, e).obs, k)
  {
    var t := e.t;
    var o := NextScript(s, sc, e).obs[|sc.obs|];
    assert NextScript(s, sc, e).obs == sc.obs + [o];
    FirstTokenAppend(t, sc.obs, o, k.id);
    if k.id !in Saved(t, sc.obs) && k.id !in Gone(sc.obs) && e.CompareAndSave? && e.id == k.id {
      assert s.holder.Free?;
      assert k == Key(k.tenant, k.id);
      SwapHasGrounds(s.rows, done, k, e.expected);
    }
  }

  lemma WorkKeepsDrafts(s: State, done: seq<Unit>, sc: Script, e: Event, k: Key)
    requires TxWork(e) && CanWork(s, e) && s.txs[e.t].tenant == k.tenant && s.txs[e.t].id == e.t
    requires ScriptOk(s.rows, s.txs[e.t], sc) && DoneOk(s, done) && DraftsOk(s, done, e.t, sc, k)
    ensures forall obs :: Draft(Worked(s.txs[e.t], SpareOf(s, e.t), e), NextScript(s, sc, e), obs) ==>
              ClaimOk(s, done, e.t, obs, k)
  {
    assert Draft(s.txs[e.t], sc, sc.obs);
    forall obs | Draft(Worked(s.txs[e.t], SpareOf(s, e.t), e), NextScript(s, sc, e), obs)
      ensures ClaimOk(s, done, e.t, obs, k)
    {
      DraftsAfter(s, sc, e, obs);
      if !Draft(s.txs[e.t], sc, obs) {
        OperationKeepsClaim(s, done, sc, e, k);
      }
    }
  }

  /** The claims of all open transactions after one of them has been worked on. */
  lemma ReworkKeepsClaims(s: State, done: seq<Unit>, scripts: map<Uuid, Script>, k: Key,
                          t: Uuid, tx: Tx, spare: map<Uuid, Spare>, sc: Script)
    requires OpenClaims(s, done, scripts, k) && s.active <= s.txs.Keys && t in s.txs && Reworked(s.txs[t], tx)
    requires s.txs[t].tenant == k.tenant ==> forall obs :: Draft(tx, sc, obs) ==> ClaimOk(s, done, t, obs, k)
    ensures OpenClaims(s.(txs := s.txs[t := tx], spare := spare), done, scripts[t := sc], k)
  {
    var s', scripts' := s.(txs := s.txs[t := tx], spare := spare), scripts[t := sc];
    forall x | x in s'.active && x in scripts' && s'.txs[x].tenant == k.tenant
      ensures DraftsOk(s', done, x, scripts'[x], k)
    {
      if x != t {
        assert DraftsOk(s, done, x, scripts[x], k);
      }
      forall obs | Draft(s'.txs[x], scripts'[x], obs) ensures ClaimOk(s', done, x, obs, k) {
        assert ClaimOk(s, done, x, obs, k);
        SameClaim(s, s', done, x, obs, k);
      }
    }
  }

  lemma WorkKeepsClaims(s: State, done: seq<Unit>, scripts: map<Uuid, Script>, e: Event, k: Key)
    requires TxsOk(s) && ScriptsOk(s, scripts) && DoneOk(s, done) && TxWork(e) && CanWork(s, e)
    requires OpenClaims(s, done, scripts, k) && HolderGrounded(s, done, scripts, k)
    ensures OpenClaims(AfterWork(s, e), done, scripts[e.t := NextScript(s, scripts[e.t], e)], k)
    ensures HolderGrounded(AfterWork(s, e), done, scripts[e.t := NextScript(s, scripts[e.t], e)], k)
  {
    var t, sc, s' := e.t, NextScript(s, scripts[e.t], e), AfterWork(s, e);
    DraftsAfterWork(s, done, scripts, e, k);
    TxWorkReworks(s, e);
    ReworkKeepsClaims(s, done, scripts, k, t, s'.txs[t], s'.spare, sc);
    ReworkLeavesHolder(s, done, scripts, k, t, s'.txs[t], s'.spare, sc);
  }

  lemma DraftsAfterWork(s: State, done: seq<Unit>, scripts: map<Uuid, Script>, e: Event, k: Key)
    requires TxsOk(s) && ScriptsOk(s, scripts) && DoneOk(s, done) && TxWork(e) && CanWork(s, e)
    requires OpenClaims(s, done, scripts, k)
    ensures s.txs[e.t].tenant == k.tenant ==>
      forall obs :: Draft(Worked(s.txs[e.t], SpareOf(s, e.t), e), NextScript(s, scripts[e.t], e), obs) ==>
        ClaimOk(s, done, e.t, obs, k)
  {
    if s.txs[e.t].tenant == k.tenant {
      assert DraftsOk(s, done, e.t, scripts[e.t], k);
      assert ScriptOk(s.rows, s.txs[e.t], scripts[e.t]);
      WorkKeepsDrafts(s, done, scripts[e.t], e, k);
    }
  }

  lemma ReworkLeavesHolder(s: State, done: seq<Unit>, scripts: map<Uuid, Script>, k: Key,
                           t: Uuid, tx: Tx, spare: map<Uuid, Spare>, sc: Script)
    requires HolderGrounded(s, done, scripts, k) && (s.holder.Free? || s.holder.tx != t)
    ensures HolderGrounded(s.(txs := s.txs[t := tx], spare := spare), done, scripts[t := sc], k)
  {
  }

  /** Nothing the claim of `t` rests on has changed. */
  lemma SameClaim(s: State, s': State, done: seq<Unit>, t: Uuid, obs: seq<Obs>, k: Key)
    requires t in s.txs && t in s'.txs && ClaimOk(s, done, t, obs, k)
    requires s'.log == s.log && Baseline(s', t) == Baseline(s, t) && s'.txs[t].snapshot == s.txs[t].snapshot
    requires forall x :: x in s.txs ==> x in s'.txs && s'.txs[x].tenant == s.txs[x].tenant
    requires s'.holder.Stamped? && s'.holder.tx != t ==>
      (s.holder == s'.holder) || s'.txs[t].snapshot < s'.holder.stamp
    ensures ClaimOk(s', done, t, obs, k)
  {
    if i :| 0 <= i < |s.log| && Guards(s, s.log[i], t, k) {
      assert Guards(s', s'.log[i], t, k);
    }
  }

  // --- the manager's own events ------------------------------------------

  /** How the transactions open in `s'` stand as they stood in `s`. */
  predicate StandAsBefore(s: State, s': State) {
    && s'.log == s.log && s'.active <= s.active <= s.txs.Keys
    && (forall x :: x in s.txs ==> x in s'.txs && s'.txs[x].tenant == s.txs[x].tenant)
    && (forall t :: t in s'.active ==> s'.txs[t] == s.txs[t] && Baseline(s', t) == Baseline(s, t))
  }

  lemma SameKeepsClaims(s: State, s': State, done: seq<Unit>, scripts: map<Uuid, Script>, k: Key)
    requires OpenClaims(s, done, scripts, k) && StandAsBefore(s, s')
    requires s'.holder.Stamped? && s'.holder != s.holder ==>
      forall t :: t in s'.active ==> s'.txs[t].snapshot < s'.holder.stamp
    ensures OpenClaims(s', done, scripts, k)
  {
    forall t | t in s'.active && t in scripts && s'.txs[t].tenant == k.tenant
      ensures DraftsOk(s', done, t, scripts[t], k)
    {
      assert DraftsOk(s, done, t, scripts[t], k);
      forall obs | Draft(s'.txs[t], scripts[t], obs) ensures ClaimOk(s', done, t, obs, k) {
        assert ClaimOk(s, done, t, obs, k);
        SameClaim(s, s', done, t, obs, k);
      }
    }
  }

  lemma BeginKeepsClaims(s: State, done: seq<Unit>, scripts: map<Uuid, Script>, k: Key, t: Uuid, tenant: Uuid, now: int,
                         base: Db)
    requires OpenClaims(s, done, scripts, k) && s.active <= s.txs.Keys && t !in s.txs
    ensures OpenClaims(Begun(s, t, tenant, now), done, scripts[t := Script(base, [], map[])], k)
  {
    var s', scripts' := Begun(s, t, tenant, now), scripts[t := Script(base, [], map[])];
    forall x | x in s'.active && x in scripts' && s'.txs[x].tenant == k.tenant
      ensures DraftsOk(s', done, x, scripts'[x], k)
    {
      if x != t {
        assert DraftsOk(s, done, x, scripts[x], k);
        forall obs | Draft(s'.txs[x], scripts'[x], obs) ensures ClaimOk(s', done, x, obs, k) {
          assert ClaimOk(s, done, x, obs, k);
          SameClaim(s, s', done, x, obs, k);
        }
      }
    }
  }

  /** A commit that passes its check had no guard against it. */
  lemma PassedIsGrounded(s: State, done: seq<Unit>, scripts: map<Uuid, Script>, k: Key, t: Uuid)
    requires OpenClaims(s, done, scripts, k) && t in s.active && t in s.txs && t in scripts && t in s.marked
    requires ScriptOk(s.rows, s.txs[t], scripts[t]) && TxOk(s.txs[t]) && s.txs[t].id == t
    requires !Conflicts(s.log, Baseline(s, t), s.txs[t])
    ensures HolderGrounded(Passed(s, t), done, scripts, k)
  {
    var tx, obs := s.txs[t], scripts[t].obs;
    var c := FirstToken(t, obs, k.id);
    if tx.tenant == k.tenant && c.Some? {
      assert DraftsOk(s, done, t, scripts[t], k);
      assert Draft(tx, scripts[t], obs);
      ClaimIsWritten(t, obs, k.id);
      assert k.id in tx.writeSet;
      assert !Guarded(s, t, k);
    }
  }

  // --- the record --------------------------------------------------------

  lemma RecordKeepsGuard(s: State, t: Uuid, x: Uuid, k: Key)
    requires TxsOk(s) && Recording(s, t) && x in s.active && x != t && Guarded(s, x, k)
    ensures x in Recorded(s, t).txs && Guarded(Recorded(s, t), x, k)
  {
    var s' := Recorded(s, t);
    assert s'.txs[x] == s.txs[x] && Baseline(s', x) == Baseline(s, x);
    var i :| 0 <= i < |s.log| && Guards(s, s.log[i], x, k);
    var j := RecordKeepsEntry(s, t, x, s.log[i]);
    assert Guards(s', s'.log[j], x, k);
  }

  /** A recorded write of `k` guards against everybody whose snapshot lies before it. */
  lemma RecordGuards(s: State, t: Uuid, x: Uuid, k: Key)
    requires TxsOk(s) && Recording(s, t) && x in s.active && x != t && s.txs[x].snapshot < s.holder.stamp
    requires s.txs[t].tenant == k.tenant && k.id in s.txs[t].writeSet
    ensures x in Recorded(s, t).txs && Guarded(Recorded(s, t), x, k)
  {
    var s' := Recorded(s, t);
    assert s'.txs[x] == s.txs[x] && Baseline(s', x) == Baseline(s, x);
    var j := RecordKeepsEntry(s, t, x, Committed(t, s.holder.stamp, s.commitSeq + 1, s.txs[t].writeSet));
    assert Guards(s', s'.log[j], x, k);
  }

  lemma RecordKeepsClaim(s: State, done: seq<Unit>, t: Uuid, u: Unit, x: Uuid, obs: seq<Obs>, k: Key)
    requires TxsOk(s) && Recording(s, t) && x in s.active && x != t && ClaimOk(s, done, x, obs, k)
    requires Writes(u, k) ==> s.txs[t].tenant == k.tenant && k.id in s.txs[t].writeSet
    ensures x in Recorded(s, t).txs && ClaimOk(Recorded(s, t), done + [u], x, obs, k)
  {
    var c := FirstToken(x, obs, k.id);
    if c.Some? {
      if Guarded(s, x, k) {
        RecordKeepsGuard(s, t, x, k);
      } else if Writes(u, k) {
        RecordGuards(s, t, x, k);
      } else {
        GroundsStay(done, u, k, c.value);
      }
    }
  }

  lemma RecordKeepsOpenClaims(s: State, done: seq<Unit>, scripts: map<Uuid, Script>, t: Uuid, u: Unit, k: Key)
    requires TxsOk(s) && Recording(s, t) && OpenClaims(s, done, scripts, k)
    requires Writes(u, k) ==> s.txs[t].tenant == k.tenant && k.id in s.txs[t].writeSet
    ensures OpenClaims(Recorded(s, t), done + [u], scripts, k)
  {
    var s' := Recorded(s, t);
    forall x | x in s'.active && x in scripts && s'.txs[x].tenant == k.tenant
      ensures DraftsOk(s', done + [u], x, scripts[x], k)
    {
      assert s'.txs[x] == s.txs[x] && DraftsOk(s, done, x, scripts[x], k);
      forall obs | Draft(s'.txs[x], scripts[x], obs) ensures ClaimOk(s', done + [u], x, obs, k) {
        RecordKeepsClaim(s, done, t, u, x, obs, k);
      }
    }
  }

  lemma RecordKeepsClaims(tr: Trace, t: Uuid, k: Key)
    requires SerialInv(tr) && ClaimsInv(tr, k) && Recording(tr.w.s, t)
    ensures t in tr.scripts && t in tr.w.dirtied
    ensures
      var done := tr.done + [CommittedUnit(tr.w, t, tr.scripts[t])];
      OpenClaims(Recorded(tr.w.s, t), done, tr.scripts, k) && LandedOk(done, k)
  {
    var s, sc := tr.w.s, tr.scripts[t];
    var u := CommittedUnit(tr.w, t, sc);
    assert ScriptOk(s.rows, s.txs[t], sc);
    RecordKeepsOpenClaims(s, tr.done, tr.scripts, t, u, k);
    LandedGrows(tr.done, u, k);
  }

  // --- direct writes -----------------------------------------------------

  lemma DirectKeepsClaims(s: State, done: seq<Unit>, scripts: map<Uuid, Script>, x: Key, r: Row, u: Unit, k: Key)
    requires OpenClaims(s, done, scripts, k) && s.active <= s.txs.Keys && s.holder.Free? && u.direct
    ensures OpenClaims(WrittenDirectly(s, x, r), done + [u], scripts, k)
  {
    var s' := WrittenDirectly(s, x, r);
    forall t | t in s'.active && t in scripts && s'.txs[t].tenant == k.tenant
      ensures DraftsOk(s', done + [u], t, scripts[t], k)
    {
      assert DraftsOk(s, done, t, scripts[t], k);
      forall obs | Draft(s'.txs[t], scripts[t], obs) ensures ClaimOk(s', done + [u], t, obs, k) {
        assert ClaimOk(s, done, t, obs, k);
        SameClaim(s, s', done, t, obs, k);
        var c := FirstToken(t, obs, k.id);
        if c.Some? && Grounded(done, k, c.value) {
          GroundsStay(done, u, k, c.value);
        }
      }
    }
  }

  lemma DirectClaimsNothing(a: Actor, o: Obs, id: Uuid)
    requires !o.Swapped?
    ensures FirstToken(a.t, [o], id) == None
  {
    assert [o][..0] == [];
  }

  // --- every step --------------------------------------------------------

  lemma DirectStepKeepsClaims(s: State, done: seq<Unit>, scripts: map<Uuid, Script>, e: Event, k: Key)
    requires OpenClaims(s, done, scripts, k) && s.active <= s.txs.Keys && LandedOk(done, k)
    requires Enabled(s, e) && (e.DirectSave? || e.DirectDelete?)
    ensures
      var u := if e.DirectSave? then SavedUnit(e.k, e.e) else DeletedUnit(e.k);
      OpenClaims(Next(s, e), done + [u], scripts, k) && LandedOk(done + [u], k) && Next(s, e).holder.Free?
  {
    var u := if e.DirectSave? then SavedUnit(e.k, e.e) else DeletedUnit(e.k);
    var vs, stamp := RowsOf(s.rows, e.k), NextStamp(s.floor, e.now);
    DirectClaimsNothing(u.a, u.obs[0], k.id);
    LandedGrows(done, u, k);
    if e.DirectSave? {
      DirectKeepsClaims(s, done, scripts, e.k, SavedRow(vs, e.e, e.e.txId, stamp), u, k);
    } else {
      DirectKeepsClaims(s, done, scripts, e.k, Tombstone(vs, NO_ID, stamp), u, k);
    }
  }

  /** Marking a commit, and ending a transaction that does not hold the lock. */
  lemma TableKeepsClaims(s: State, s': State, done: seq<Unit>, scripts: map<Uuid, Script>, k: Key)
    requires OpenClaims(s, done, scripts, k) && HolderGrounded(s, done, scripts, k)
    requires StandAsBefore(s, s') && s'.holder == s.holder
    requires !s.holder.Free? && s.holder.tx in s.txs ==> s'.txs[s.holder.tx] == s.txs[s.holder.tx]
    ensures OpenClaims(s', done, scripts, k)
    ensures (!s.holder.Free? ==> s.holder.tx in s.txs) ==> HolderGrounded(s', done, scripts, k)
  {
    SameKeepsClaims(s, s', done, scripts, k);
  }

  lemma StampKeepsClaims(s: State, done: seq<Unit>, scripts: map<Uuid, Script>, k: Key, t: Uuid, stamp: int)
    requires OpenClaims(s, done, scripts, k) && HolderGrounded(s, done, scripts, k) && TxsOk(s)
    requires s.holder == Checked(t) && stamp > s.floor
    ensures OpenClaims(StampTaken(s, t, stamp), done, scripts, k)
    ensures HolderGrounded(StampTaken(s, t, stamp), done, scripts, k)
  {
    SameKeepsClaims(s, StampTaken(s, t, stamp), done, scripts, k);
  }

  lemma CheckKeepsClaims(s: State, done: seq<Unit>, scripts: map<Uuid, Script>, k: Key, t: Uuid)
    requires OpenClaims(s, done, scripts, k) && TxsOk(s) && s.holder.Free? && t in s.marked && t in s.active
    requires t in scripts && ScriptOk(s.rows, s.txs[t], scripts[t])
    ensures
      var s' := if Conflicts(s.log, Baseline(s, t), s.txs[t]) then Refused(s, t) else Passed(s, t);
      OpenClaims(s', done, scripts, k) && HolderGrounded(s', done, scripts, k)
  {
    if Conflicts(s.log, Baseline(s, t), s.txs[t]) {
      SameKeepsClaims(s, Refused(s, t), done, scripts, k);
    } else {
      SameKeepsClaims(s, Passed(s, t), done, scripts, k);
      PassedIsGrounded(s, done, scripts, k, t);
    }
  }

  lemma CommitKeepsClaims(s: State, done: seq<Unit>, scripts: map<Uuid, Script>, e: Event, k: Key)
    requires TxsOk(s) && Orderly(s) && ScriptsOk(s, scripts) && Enabled(s, e) && (e.CommitCheck? || e.CommitStamp?)
    requires OpenClaims(s, done, scripts, k) && HolderGrounded(s, done, scripts, k)
    ensures OpenClaims(Next(s, e), done, scripts, k) && HolderGrounded(Next(s, e), done, scripts, k)
  {
    if e.CommitCheck? {
      assert ScriptOk(s.rows, s.txs[e.t], scripts[e.t]);
      CheckKeepsClaims(s, done, scripts, k, e.t);
    } else {
      StampKeepsClaims(s, done, scripts, k, e.t, NextStamp(s.floor, e.now));
    }
  }

  lemma TableStepKeepsClaims(s: State, done: seq<Unit>, scripts: map<Uuid, Script>, e: Event, k: Key)
    requires TxsOk(s) && Enabled(s, e) && (e.CommitMark? || e.Rollback?)
    requires OpenClaims(s, done, scripts, k) && HolderGrounded(s, done, scripts, k)
    ensures OpenClaims(Next(s, e), done, scripts, k) && HolderGrounded(Next(s, e), done, scripts, k)
  {
    if e.CommitMark? {
      TableKeepsClaims(s, s.(committing := s.committing + {e.t}, marked := s.marked + {e.t}), done, scripts, k);
    } else {
      UndoneStands(s, e.t);
      TableKeepsClaims(s, Undone(s, e.t), done, scripts, k);
    }
  }

  lemma UndoneStands(s: State, t: Uuid)
    requires TxsOk(s) && t in s.txs && (s.holder.Free? || s.holder.tx != t)
    ensures StandAsBefore(s, Undone(s, t)) && Undone(s, t).holder == s.holder
    ensures !s.holder.Free? ==> Undone(s, t).txs[s.holder.tx] == s.txs[s.holder.tx]
  {
  }

  predicate Publishes(e: Event) { e.CommitRecord? || e.DirectSave? || e.DirectDelete? }

  lemma UnpublishedKeepsClaims(tr: Trace, e: Event, k: Key)
    requires SerialInv(tr) && ClaimsInv(tr, k) && CanStep(tr, e) && !Publishes(e)
    ensures OpenClaims(Next(tr.w.s, e), tr.done, NextScripts(tr, e), k)
    ensures HolderGrounded(Next(tr.w.s, e), tr.done, NextScripts(tr, e), k)
  {
    if TxWork(e) {
      WorkKeepsClaims(tr.w.s, tr.done, tr.scripts, e, k);
    } else if e.Begin? {
      BeginKeepsClaims(tr.w.s, tr.done, tr.scripts, k, e.t, e.tenant, e.now, Current(Pending(tr.w.s)));
    } else if e.CommitCheck? || e.CommitStamp? {
      CommitKeepsClaims(tr.w.s, tr.done, tr.scripts, e, k);
    } else {
      TableStepKeepsClaims(tr.w.s, tr.done, tr.scripts, e, k);
    }
  }

  lemma AdvanceKeepsClaims(tr: Trace, e: Event, k: Key)
    requires SerialInv(tr) && ClaimsInv(tr, k) && CanStep(tr, e)
    ensures ClaimsInv(Advance(tr, e), k)
  {
    if e.CommitRecord? {
      RecordKeepsClaims(tr, e.t, k);
    } else if e.DirectSave? || e.DirectDelete? {
      DirectAdvance(tr, e, k);
    } else {
      UnpublishedAdvance(tr, e, k);
    }
  }

  lemma DirectAdvance(tr: Trace, e: Event, k: Key)
    requires tr.w.s.active <= tr.w.s.txs.Keys && ClaimsInv(tr, k) && CanStep(tr, e)
    requires e.DirectSave? || e.DirectDelete?
    ensures ClaimsInv(Advance(tr, e), k)
  {
    DirectStepKeepsClaims(tr.w.s, tr.done, tr.scripts, e, k);
    DirectAdvances(tr, e);
  }

  lemma DirectAdvances(tr: Trace, e: Event)
    requires CanStep(tr, e) && (e.DirectSave? || e.DirectDelete?)
    ensures
      var tr', u := Advance(tr, e), if e.DirectSave? then SavedUnit(e.k, e.e) else DeletedUnit(e.k);
      tr'.done == tr.done + [u] && tr'.scripts == tr.scripts && tr'.w.s == Next(tr.w.s, e)
  {
  }

  lemma UnpublishedAdvance(tr: Trace, e: Event, k: Key)
    requires SerialInv(tr) && ClaimsInv(tr, k) && CanStep(tr, e) && !Publishes(e)
    ensures ClaimsInv(Advance(tr, e), k)
  {
    UnpublishedKeepsClaims(tr, e, k);
  }

  lemma {:induction false} RunKeepsClaims(tr: Trace, es: seq<Event>, tr': Trace, k: Key)
    requires Leads(tr, es, tr') && SerialInv(tr) && ClaimsInv(tr, k)
    ensures ClaimsInv(tr', k)
    decreases |es|
  {
    if es != [] {
      AdvanceKeepsSerial(tr, es[0]);
      AdvanceKeepsClaims(tr, es[0], k);
      RunKeepsClaims(Advance(tr, es[0]), es[1..], tr', k);
    }
  }

  // --- the theorem -------------------------------------------------------

  /** Units `p` and `q` both left `token` on `k`, one of them outside any transaction. */
  predicate Repeated(done: seq<Unit>, p: nat, q: nat, k: Key, token: Uuid)
    requires p < q < |done|
  {
    && Writes(done[p], k) && done[p].a.t == token
    && Writes(done[q], k) && done[q].a.t == token
    && (done[p].direct || done[q].direct)
  }

  /** In every run, if two compare-and-saves landed on one version token, then a write
      outside any transaction repeated that token: one version carried it before the
      first of them landed, another from then on before the second. */
  lemma OneLandingPerToken(es: seq<Event>, tr: Trace, i: nat, j: nat, k: Key, token: Uuid)
    requires Leads(EMPTY_TRACE, es, tr) && i < j < |tr.done|
    requires SwapsFirst(tr.done[i], k, token) && SwapsFirst(tr.done[j], k, token)
    ensures exists p: nat, q: nat :: p < i <= q < j && Repeated(tr.done, p, q, k, token)
  {
    LandingsOfARun(es, tr, k);
    TwoLandings(tr.done, i, j, k, token);
  }

  lemma LandingsOfARun(es: seq<Event>, tr: Trace, k: Key)
    requires Leads(EMPTY_TRACE, es, tr)
    ensures LandedOk(tr.done, k) && Distinct(tr.done)
  {
    RunKeepsClaims(EMPTY_TRACE, es, tr, k);
    UnitsAreDistinct(EMPTY_TRACE, es, tr);
  }

  lemma LandingHasGrounds(done: seq<Unit>, i: nat, k: Key, token: Uuid) returns (n: nat)
    requires LandedOk(done, k) && i < |done| && SwapsFirst(done[i], k, token)
    ensures !done[i].direct && GroundedAt(done[..i], n, k, token)
  {
    var u := done[i];
    var m :| 0 <= m < |u.obs| && u.obs[m].Swapped? && u.obs[m].id == k.id && u.obs[m].expected == token &&
             k.id !in Saved(u.a.t, u.obs[..m]) && k.id !in Gone(u.obs[..m]);
    SwapsFirstHasToken(u, k, token, m);
    n :| GroundedAt(done[..i], n, k, token);
  }

  lemma TwoLandings(done: seq<Unit>, i: nat, j: nat, k: Key, token: Uuid)
    requires LandedOk(done, k) && Distinct(done) && i < j < |done|
    requires SwapsFirst(done[i], k, token) && SwapsFirst(done[j], k, token)
    ensures exists p: nat, q: nat :: p < i <= q < j && Repeated(done, p, q, k, token)
  {
    var m := LandingHasGrounds(done, i, k, token);
    var n := LandingHasGrounds(done, j, k, token);
    SwapperWrites(done[i], k, token);
    assert done[..j][i] == done[i];
    var p, q := LastWriter(done[..i][..m], k), LastWriter(done[..j][..n], k);
    assert done[..i][..m][p] == done[p] && done[..j][..n][q] == done[q];
    assert i < n;
    assert done[..j][..n][i] == done[i];
    assert Repeated(done, p, q, k, token);
  }

  // --- a token that lands twice ------------------------------------------

  /** A run without rollbacks has its trace. */
  lemma {:induction false} RunHasTrace(tr: Trace, es: seq<Event>, w: World) returns (tr': Trace)
    requires SerialInv(tr) && Runs(tr.w, es, w) && forall e :: e in es ==> !e.Rollback?
    ensures Leads(tr, es, tr') && tr'.w == w
    decreases |es|
  {
    if es == [] {
      tr' := tr;
    } else {
      CanStepExactlyWhen(tr, es[0]);
      AdvanceKeepsSerial(tr, es[0]);
      tr' := RunHasTrace(Advance(tr, es[0]), es[1..], w);
    }
  }

  lemma {:induction false} LeadsSplit(tr: Trace, a: seq<Event>, b: seq<Event>, tr': Trace) returns (mid: Trace)
    requires Leads(tr, a + b, tr')
    ensures Leads(tr, a, mid) && Leads(mid, b, tr')
    decreases |a|
  {
    if a == [] {
      assert a + b == b;
      mid := tr;
    } else {
      assert (a + b)[1..] == a[1..] + b && (a + b)[0] == a[0];
      mid := LeadsSplit(Advance(tr, a[0]), a[1..], b, tr');
    }
  }

  /** Steps of `t` that neither publish nor work on it leave its script alone. */
  lemma ScriptWaits(tr: Trace, e: Event, t: Uuid)
    requires CanStep(tr, e) && t in tr.w.s.txs && !TxWork(e) && !Publishes(e) && !e.Begin?
    ensures
      var tr' := Advance(tr, e);
      && tr'.done == tr.done && t in tr'.scripts && tr'.scripts[t] == tr.scripts[t]
      && t in tr'.w.s.txs && tr'.w.s.txs[t].tenant == tr.w.s.txs[t].tenant
  {
    SnapshotIsFixed(tr.w.s, e, t);
  }

  /** The end of a commit of `t`, with nothing else going on. */
  predicate Closing(es: seq<Event>, t: Uuid) {
    && es != [] && es[|es| - 1] == CommitRecord(t)
    && forall i :: 0 <= i < |es| - 1 ==> !TxWork(es[i]) && !Publishes(es[i]) && !es[i].Begin?
  }

  lemma {:induction false} ScriptLands(tr: Trace, es: seq<Event>, tr': Trace, t: Uuid)
    requires Leads(tr, es, tr') && t in tr.w.s.txs && Closing(es, t)
    ensures |tr'.done| == |tr.done| + 1 && tr.done <= tr'.done && t in tr.scripts
    ensures
      var u := tr'.done[|tr.done|];
      u.a == Actor(t, tr.w.s.txs[t].tenant) && u.obs == tr.scripts[t].obs
    decreases |es|
  {
    if |es| == 1 {
      assert es[1..] == [];
    } else {
      ScriptWaits(tr, es[0], t);
      ScriptLands(Advance(tr, es[0]), es[1..], tr', t);
    }
  }

  lemma LeadsOne(tr: Trace, e: Event, tr': Trace)
    requires Leads(tr, [e], tr')
    ensures CanStep(tr, e) && tr' == Advance(tr, e)
  {
    assert [e][1..] == [];
  }

  lemma BegunTrace(tr: Trace, t: Uuid, k: Key)
    requires CanStep(tr, Begin(t, k.tenant, 0))
    ensures
      var tr' := Advance(tr, Begin(t, k.tenant, 0));
      && tr'.done == tr.done && t in tr'.scripts && tr'.scripts[t].obs == []
      && t in tr'.w.s.txs && tr'.w.s.txs[t].tenant == k.tenant
  {
  }

  lemma SwappedTrace(tr: Trace, t: Uuid, k: Key, v: Entity, token: Uuid)
    requires CanStep(tr, CompareAndSave(t, k.id, v, token)) && tr.scripts[t].obs == []
    ensures
      var tr' := Advance(tr, CompareAndSave(t, k.id, v, token));
      && tr'.done == tr.done && t in tr'.scripts && tr'.scripts[t].obs == [Swapped(k.id, v, token)]
      && t in tr'.w.s.txs && tr'.w.s.txs[t].tenant == tr.w.s.txs[t].tenant
  {
    SnapshotIsFixed(tr.w.s, CompareAndSave(t, k.id, v, token), t);
  }

  lemma BeginAndSwap(tr: Trace, t: Uuid, k: Key, v: Entity, token: Uuid, tr': Trace)
    requires Leads(tr, [Begin(t, k.tenant, 0)] + [CompareAndSave(t, k.id, v, token)], tr')
    ensures tr'.done == tr.done && t in tr'.w.s.txs && tr'.w.s.txs[t].tenant == k.tenant
    ensures t in tr'.scripts && tr'.scripts[t].obs == [Swapped(k.id, v, token)]
  {
    var mid := LeadsSplit(tr, [Begin(t, k.tenant, 0)], [CompareAndSave(t, k.id, v, token)], tr');
    LeadsOne(tr, Begin(t, k.tenant, 0), mid);
    LeadsOne(mid, CompareAndSave(t, k.id, v, token), tr');
    BegunTrace(tr, t, k);
    SwappedTrace(mid, t, k, v, token);
  }

  lemma OneSwapClaims(u: Unit, k: Key, v: Entity, token: Uuid)
    requires u.a.tenant == k.tenant && u.obs == [Swapped(k.id, v, token)]
    ensures SwapsFirst(u, k, token)
  {
    assert u.obs[..0] == [] && u.obs[0] == Swapped(k.id, v, token);
  }

  lemma SwapScriptLands(tr: Trace, a: seq<Event>, b: seq<Event>, t: Uuid, k: Key, v: Entity, token: Uuid, tr': Trace)
    requires a == [Begin(t, k.tenant, 0)] + [CompareAndSave(t, k.id, v, token)]
    requires Closing(b, t) && Leads(tr, a + b, tr')
    ensures |tr'.done| == |tr.done| + 1 && tr.done <= tr'.done && SwapsFirst(tr'.done[|tr.done|], k, token)
  {
    var mid := LeadsSplit(tr, a, b, tr');
    BeginAndSwap(tr, t, k, v, token, mid);
    ScriptLands(mid, b, tr', t);
    OneSwapClaims(tr'.done[|tr.done|], k, v, token);
  }

  lemma SwapScriptSplits(t: Uuid, k: Key, v: Entity, token: Uuid) returns (a: seq<Event>, b: seq<Event>)
    ensures Witnesses.SwapScript(t, k, v, token) == a + b && Closing(b, t)
    ensures a == [Begin(t, k.tenant, 0)] + [CompareAndSave(t, k.id, v, token)]
  {
    a := [Begin(t, k.tenant, 0)] + [CompareAndSave(t, k.id, v, token)];
    b := [CommitMark(t, k.tenant), CommitCheck(t), CommitStamp(t, 0), CommitRecord(t)];
  }

  lemma WriteThenSwapLands(tr: Trace, t: Uuid, k: Key, v: Entity, tr': Trace)
    requires Leads(tr, [DirectSave(k, v, 0)] + Witnesses.SwapScript(t, k, v, v.txId), tr')
    ensures |tr'.done| == |tr.done| + 2 && tr.done <= tr'.done && tr'.done[|tr.done|] == SavedUnit(k, v)
    ensures SwapsFirst(tr'.done[|tr.done| + 1], k, v.txId)
  {
    var a, b := SwapScriptSplits(t, k, v, v.txId);
    DirectThenSwapLands(tr, [DirectSave(k, v, 0)], a, b, t, k, v, tr');
  }

  lemma DirectThenSwapLands(tr: Trace, d: seq<Event>, a: seq<Event>, b: seq<Event>, t: Uuid, k: Key, v: Entity,
                            tr': Trace)
    requires d == [DirectSave(k, v, 0)] && a == [Begin(t, k.tenant, 0)] + [CompareAndSave(t, k.id, v, v.txId)]
    requires Closing(b, t) && Leads(tr, d + (a + b), tr')
    ensures |tr'.done| == |tr.done| + 2 && tr.done <= tr'.done && tr'.done[|tr.done|] == SavedUnit(k, v)
    ensures SwapsFirst(tr'.done[|tr.done| + 1], k, v.txId)
  {
    var mid := LeadsSplit(tr, d, a + b, tr');
    DirectLands(tr, k, v, mid);
    SwapScriptLands(mid, a, b, t, k, v, v.txId, tr');
  }

  lemma DirectLands(tr: Trace, k: Key, v: Entity, tr': Trace)
    requires Leads(tr, [DirectSave(k, v, 0)], tr')
    ensures tr'.done == tr.done + [SavedUnit(k, v)]
  {
    LeadsOne(tr, DirectSave(k, v, 0), tr');
  }

  /** Two direct writes that carry the same token let two compare-and-saves land on it,
      whatever the entity and the token. */
  lemma TokenLandsTwice(k: Key, v: Entity) returns (es: seq<Event>, tr: Trace)
    requires k.tenant != NO_ID && v.txId != NO_ID
    ensures Leads(EMPTY_TRACE, es, tr) && |tr.done| == 4
    ensures tr.done[0] == SavedUnit(k, v) == tr.done[2]
    ensures SwapsFirst(tr.done[1], k, v.txId) && SwapsFirst(tr.done[3], k, v.txId)
  {
    var a := [DirectSave(k, v, 0)] + Witnesses.SwapScript(1, k, v, v.txId);
    var b := [DirectSave(k, v, 0)] + Witnesses.SwapScript(2, k, v, v.txId);
    es := a + b;
    var w := Witnesses.TokenRun(k, v);
    tr := RunHasTrace(EMPTY_TRACE, es, w);
    TwoHalvesLand(EMPTY_TRACE, a, b, tr, k, v);
  }

  lemma TwoHalvesLand(tr: Trace, a: seq<Event>, b: seq<Event>, tr': Trace, k: Key, v: Entity)
    requires a == [DirectSave(k, v, 0)] + Witnesses.SwapScript(1, k, v, v.txId)
    requires b == [DirectSave(k, v, 0)] + Witnesses.SwapScript(2, k, v, v.txId)
    requires Leads(tr, a + b, tr') && tr.done == []
    ensures |tr'.done| == 4 && tr'.done[0] == SavedUnit(k, v) == tr'.done[2]
    ensures SwapsFirst(tr'.done[1], k, v.txId) && SwapsFirst(tr'.done[3], k, v.txId)
  {
    var mid := LeadsSplit(tr, a, b, tr');
    WriteThenSwapLands(tr, 1, k, v, mid);
    WriteThenSwapLands(mid, 2, k, v, tr');
    assert mid.done[1] == tr'.done[1];
  }
}
