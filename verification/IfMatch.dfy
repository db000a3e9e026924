/** Token-conditional writes over whole runs. A version token is the id of the
    transaction that wrote the version; an If-Match update, a merge patch and the
    apply-result step of COMMIT_BEFORE_DISPATCH all save by compare-and-swap on it. */
module IfMatch {
  import opened Json
  import opened Versions
  import opened Transactions
  import opened TxSystem
  import opened Isolation
  import opened Serial
  import opened MergePatch

  /** Not a write of `k` outside any transaction. */
  predicate Spares(e: Event, k: Key) {
    !(e.DirectSave? && e.k == k) && !(e.DirectDelete? && e.k == k)
  }

  /** No two committed transactions carry the same id. */
  predicate Distinct(done: seq<Unit>) {
    forall i, j :: 0 <= i < j < |done| && !done[i].direct && !done[j].direct ==> done[i].a.t != done[j].a.t
  }

  /** Committed transactions are over. */
  predicate Retired(s: State, done: seq<Unit>) {
    && s.active <= s.txs.Keys
    && forall i :: 0 <= i < |done| && !done[i].direct ==> done[i].a.t in s.txs && done[i].a.t !in s.active
  }

  lemma OneMoreUnit(done: seq<Unit>, u: Unit)
    requires Distinct(done)
    requires !u.direct ==> forall i :: 0 <= i < |done| && !done[i].direct ==> done[i].a.t != u.a.t
    ensures Distinct(done + [u])
  {
  }

  /** Transactions do not come back to the table, ... */
  lemma StepKeepsGone(s: State, e: Event, t: Uuid)
    requires Enabled(s, e) && t in s.txs && t !in s.active
    ensures t in Next(s, e).txs && t !in Next(s, e).active
  {
  }

  /** ... so every one that commits is new among the committed. */
  lemma StepKeepsDistinct(tr: Trace, e: Event)
    requires CanStep(tr, e) && Orderly(tr.w.s) && TxsOk(tr.w.s) && Retired(tr.w.s, tr.done) && Distinct(tr.done)
    requires TxsOk(Next(tr.w.s, e))
    ensures Retired(Next(tr.w.s, e), NextDone(tr, e)) && Distinct(NextDone(tr, e))
  {
    var done := NextDone(tr, e);
    if |done| > |tr.done| {
      OneMoreUnit(tr.done, done[|tr.done|]);
    }
    forall i | 0 <= i < |done| && !done[i].direct
      ensures done[i].a.t in Next(tr.w.s, e).txs && done[i].a.t !in Next(tr.w.s, e).active
    {
      if i < |tr.done| {
        StepKeepsGone(tr.w.s, e, tr.done[i].a.t);
      }
    }
  }

  lemma {:induction false} UnitsAreDistinct(tr: Trace, es: seq<Event>, tr': Trace)
    requires Leads(tr, es, tr') && SerialInv(tr) && Retired(tr.w.s, tr.done) && Distinct(tr.done)
    ensures Distinct(tr'.done)
    decreases |es|
  {
    if es != [] {
      AdvanceKeepsSerial(tr, es[0]);
      StepKeepsDistinct(tr, es[0]);
      UnitsAreDistinct(Advance(tr, es[0]), es[1..], tr');
    }
  }

  // --- entities spared from direct writes --------------------------------

  /** No direct write changed `k`, so it is stale to nobody. */
  predicate Spared(done: seq<Unit>, k: Key) {
    forall i :: 0 <= i < |done| && done[i].a.tenant == k.tenant ==>
      k.id !in done[i].stale && (done[i].direct ==> !Writes(done[i], k))
  }

  predicate Undirtied(w: World, k: Key) {
    forall t :: t in w.dirtied ==> k !in w.dirtied[t]
  }

  lemma DirectWritesItsKey(a: Actor, o: Obs, k: Key)
    requires k != Key(a.tenant, o.id)
    ensures !Writes(Unit(a, [o], {}, true), k)
  {
    var obs := [o];
    assert obs[..|obs| - 1] == [];
    assert Saved(a.t, []) == map[] && Gone([]) == {};
    assert k == Key(k.tenant, k.id);
  }

  lemma StepKeepsUndirtied(w: World, e: Event, k: Key)
    requires Enabled(w.s, e) && Spares(e, k) && Undirtied(w, k)
    ensures Undirtied(Step(w, e), k)
  {
  }

  lemma OneMoreSpared(done: seq<Unit>, u: Unit, k: Key)
    requires Spared(done, k) && Spared([u], k)
    ensures Spared(done + [u], k)
  {
    assert [u][0] == u;
  }

  lemma StepKeepsSpared(tr: Trace, e: Event, k: Key)
    requires CanStep(tr, e) && Spares(e, k) && Undirtied(tr.w, k) && Spared(tr.done, k)
    ensures Spared(NextDone(tr, e), k)
  {
    match e {
      case DirectSave(k', v, _) =>
        DirectWritesItsKey(Actor(v.txId, k'.tenant), Wrote(k'.id, v), k);
        OneMoreSpared(tr.done, SavedUnit(k', v), k);
      case DirectDelete(k', _) =>
        DirectWritesItsKey(Actor(NO_ID, k'.tenant), Removed(k'.id), k);
        OneMoreSpared(tr.done, DeletedUnit(k'), k);
      case CommitRecord(t) =>
        assert k == Key(k.tenant, k.id);
        OneMoreSpared(tr.done, CommittedUnit(tr.w, t, tr.scripts[t]), k);
      case _ =>
    }
  }

  lemma {:induction false} UnitsAreSpared(tr: Trace, es: seq<Event>, tr': Trace, k: Key)
    requires Leads(tr, es, tr') && Undirtied(tr.w, k) && Spared(tr.done, k)
    requires forall e :: e in es ==> Spares(e, k)
    ensures Spared(tr'.done, k)
    decreases |es|
  {
    if es != [] {
      StepKeepsUndirtied(tr.w, es[0], k);
      StepKeepsSpared(tr, es[0], k);
      UnitsAreSpared(Advance(tr, es[0]), es[1..], tr', k);
    }
  }

  // --- the token is the last writer --------------------------------------

  predicate Writes(u: Unit, k: Key) {
    u.a.tenant == k.tenant && (k.id in Saved(u.a.t, u.obs) || k.id in Gone(u.obs))
  }

  function LastWriter(done: seq<Unit>, k: Key): (w: int)
    ensures -1 <= w < |done|
    ensures w >= 0 ==> Writes(done[w], k)
    ensures forall i :: w < i < |done| ==> !Writes(done[i], k)
  {
    if done == [] then -1
    else if Writes(done[|done| - 1], k) then |done| - 1
    else LastWriter(done[..|done| - 1], k)
  }

  lemma {:induction false} SavedCarriesId(t: Uuid, obs: seq<Obs>, id: Uuid)
    requires id in Saved(t, obs)
    ensures Saved(t, obs)[id].txId == t
  {
    if obs != [] && id in Saved(t, obs[..|obs| - 1]) {
      SavedCarriesId(t, obs[..|obs| - 1], id);
    }
  }

  lemma {:induction false} TokenIsLastWriter(done: seq<Unit>, k: Key)
    requires Lookup(ReplayAll(done), k).Some?
    ensures LastWriter(done, k) >= 0
    ensures Lookup(ReplayAll(done), k).value.txId == done[LastWriter(done, k)].a.t
  {
    if done != [] {
      var prefix, u := done[..|done| - 1], done[|done| - 1];
      ReplayOverlays(ReplayAll(prefix), u.a, u.obs, k);
      if Writes(u, k) {
        SavedCarriesId(u.a.t, u.obs, k.id);
      } else {
        TokenIsLastWriter(prefix, k);
      }
    }
  }

  /** The unit's first change of `k` is a swap that named `expected`. */
  ghost predicate SwapsFirst(u: Unit, k: Key, expected: Uuid) {
    && u.a.tenant == k.tenant
    && exists j :: 0 <= j < |u.obs| && u.obs[j].Swapped? && u.obs[j].id == k.id && u.obs[j].expected == expected &&
                   k.id !in Saved(u.a.t, u.obs[..j]) && k.id !in Gone(u.obs[..j])
  }

  /** A swap that commits replaces exactly the version its token named. */
  lemma SwapReplacesItsToken(done: seq<Unit>, i: nat, k: Key, expected: Uuid)
    requires SerialChain(done) && i < |done| && k.id !in done[i].stale && SwapsFirst(done[i], k, expected)
    ensures Lookup(ReplayAll(done[..i]), k).Some? && Lookup(ReplayAll(done[..i]), k).value.txId == expected
    ensures LastWriter(done[..i], k) >= 0 && done[LastWriter(done[..i], k)].a.t == expected
  {
    var u, db := done[i], ReplayAll(done[..i]);
    var j :| 0 <= j < |u.obs| && u.obs[j].Swapped? && u.obs[j].id == k.id && u.obs[j].expected == expected &&
             k.id !in Saved(u.a.t, u.obs[..j]) && k.id !in Gone(u.obs[..j]);
    FaithfulAt(db, u.a, u.obs, j);
    ReplayOverlays(db, u.a, u.obs[..j], k);
    assert k == Key(u.a.tenant, u.obs[j].id);
    TokenIsLastWriter(done[..i], k);
  }

  lemma {:induction false} SwappedIsWritten(t: Uuid, obs: seq<Obs>, j: nat)
    requires j < |obs| && obs[j].Swapped?
    ensures obs[j].id in Saved(t, obs) || obs[j].id in Gone(obs)
  {
    if j < |obs| - 1 {
      SwappedIsWritten(t, obs[..|obs| - 1], j);
    }
  }

  lemma SwapperWrites(u: Unit, k: Key, expected: Uuid)
    requires SwapsFirst(u, k, expected)
    ensures Writes(u, k)
  {
    var j :| 0 <= j < |u.obs| && u.obs[j].Swapped? && u.obs[j].id == k.id && u.obs[j].expected == expected &&
             k.id !in Saved(u.a.t, u.obs[..j]) && k.id !in Gone(u.obs[..j]);
    SwappedIsWritten(u.a.t, u.obs, j);
  }

  /** Two swaps of the same entity that commit named different versions. */
  lemma TokensMove(done: seq<Unit>, i: nat, j: nat, k: Key, ti: Uuid, tj: Uuid)
    requires SerialChain(done) && Distinct(done) && Spared(done, k) && i < j < |done|
    requires SwapsFirst(done[i], k, ti) && SwapsFirst(done[j], k, tj)
    ensures ti != tj
  {
    SwapReplacesItsToken(done, i, k, ti);
    SwapReplacesItsToken(done, j, k, tj);
    SwapperWrites(done[i], k, ti);
    assert done[..j][i] == done[i];
  }

  lemma SerialRun(es: seq<Event>, tr: Trace, k: Key)
    requires Leads(EMPTY_TRACE, es, tr) && forall e :: e in es ==> Spares(e, k)
    ensures DoneOk(tr.w.s, tr.done) && Distinct(tr.done) && Spared(tr.done, k)
  {
    RunKeepsSerial(EMPTY_TRACE, es, tr);
    UnitsAreDistinct(EMPTY_TRACE, es, tr);
    UnitsAreSpared(EMPTY_TRACE, es, tr, k);
  }

  /** A COMMIT_BEFORE_DISPATCH continuation swaps on the id of the segment it
      continues; if it commits, nobody changed the entity in between. */
  lemma NothingBetweenSegments(es: seq<Event>, tr: Trace, pre: nat, post: nat, k: Key)
    requires Leads(EMPTY_TRACE, es, tr) && forall e :: e in es ==> Spares(e, k)
    requires pre < |tr.done| && post < |tr.done| && !tr.done[pre].direct
    requires SwapsFirst(tr.done[post], k, tr.done[pre].a.t)
    ensures pre < post && Writes(tr.done[pre], k)
    ensures forall m :: pre < m < post ==> !Writes(tr.done[m], k)
  {
    SerialRun(es, tr, k);
    SwapReplacesItsToken(tr.done, post, k, tr.done[pre].a.t);
    var w := LastWriter(tr.done[..post], k);
    assert w == pre;
    forall m | pre < m < post ensures !Writes(tr.done[m], k) {
      assert tr.done[..post][m] == tr.done[m];
    }
  }

  // --- merge patches -----------------------------------------------------

  /** A unit that is one merge patch: read the document, swap in the merged one. */
  predicate PatchUnit(u: Unit, k: Key, patch: Value) {
    && u.a.tenant == k.tenant && |u.obs| == 2
    && u.obs[0].Read? && u.obs[0].id == k.id && u.obs[0].result.Some?
    && u.obs[1].Swapped? && u.obs[1].id == k.id && u.obs[1].value == Patched(u.obs[0].result.value, patch)
  }

  function Patched(e: Entity, patch: Value): Entity {
    e.(data := Merge(e.data, patch))
  }

  lemma ReadChangesNothing(t: Uuid, o: Obs)
    requires o.Read?
    ensures Saved(t, [o]) == map[] && Gone([o]) == {}
  {
    var obs := [o];
    assert obs[..|obs| - 1] == [] && obs[|obs| - 1] == o;
    assert Saved(t, obs) == Saved(t, []) && Gone(obs) == Gone([]);
  }

  lemma PatchSwaps(u: Unit, k: Key, patch: Value)
    requires PatchUnit(u, k, patch)
    ensures SwapsFirst(u, k, u.obs[1].expected)
  {
    ReadChangesNothing(u.a.t, u.obs[0]);
    assert u.obs[..1] == [u.obs[0]];
    assert k.id !in Saved(u.a.t, u.obs[..1]) && k.id !in Gone(u.obs[..1]);
  }

  lemma PatchLands(db: Db, u: Unit, k: Key, patch: Value)
    requires PatchUnit(u, k, patch) && Faithful(db, u.a, u.obs, k.id)
    ensures k in db && u.obs[0].result == Some(db[k]) && u.obs[1].expected == db[k].txId
    ensures Lookup(Replay(db, u.a, u.obs), k) == Some(Patched(db[k], patch).(txId := u.a.t))
  {
    FaithfulAt(db, u.a, u.obs, 0);
    FaithfulAt(db, u.a, u.obs, 1);
    assert u.obs[..1] == [u.obs[0]] && u.obs[..0] == [] && u.obs[..1][..0] == [];
    assert Replay(db, u.a, u.obs[..1]) == db;
  }

  /** The unit at `i` was applied to exactly the version its token named, and left
      a version with another token. */
  predicate AppliedToItsToken(done: seq<Unit>, i: nat, k: Key)
    requires i < |done|
  {
    var u, before, after := done[i], ReplayAll(done[..i]), ReplayAll(done[..i + 1]);
    && |u.obs| == 2 && u.obs[0].Read? && u.obs[1].Swapped?
    && k in before && u.obs[0].result == Some(before[k]) && u.obs[1].expected == before[k].txId
    && k in after && after[k].txId == u.a.t != before[k].txId
  }

  lemma LandingAdvances(done: seq<Unit>, k: Key, i: nat, patch: Value)
    requires i < |done| && PatchUnit(done[i], k, patch)
    requires SerialChain(done) && Distinct(done) && Spared(done, k)
    ensures AppliedToItsToken(done, i, k)
  {
    PatchLands(ReplayAll(done[..i]), done[i], k, patch);
    assert done[..i + 1][..i] == done[..i];
    TokenIsLastWriter(done[..i], k);
  }

  /** The patches that landed in units `from` to `n`, folded over the document. */
  function Fold(done: seq<Unit>, patches: seq<Value>, k: Key, doc: Value, from: nat, n: nat): Value
    requires from <= n <= |done| == |patches|
  {
    if n == from then doc
    else
      var prev := Fold(done, patches, k, doc, from, n - 1);
      if Writes(done[n - 1], k) then Merge(prev, patches[n - 1]) else prev
  }

  /** From unit `from` on, only patches change `k`. */
  predicate OnlyPatches(done: seq<Unit>, patches: seq<Value>, k: Key, from: nat)
    requires |done| == |patches|
  {
    forall i :: from <= i < |done| && Writes(done[i], k) ==> PatchUnit(done[i], k, patches[i])
  }

  /** Unit `i` takes the document to its patched form, or leaves it alone. */
  predicate DocumentSteps(done: seq<Unit>, k: Key, i: nat, patch: Value)
    requires i < |done|
  {
    k in ReplayAll(done[..i]) ==>
      && k in ReplayAll(done[..i + 1])
      && ReplayAll(done[..i + 1])[k].data ==
         if Writes(done[i], k) then Merge(ReplayAll(done[..i])[k].data, patch) else ReplayAll(done[..i])[k].data
  }

  lemma DocumentAfter(done: seq<Unit>, k: Key, i: nat, patch: Value)
    requires i < |done| && (Writes(done[i], k) ==> PatchUnit(done[i], k, patch))
    requires SerialChain(done) && Spared(done, k)
    ensures DocumentSteps(done, k, i, patch)
  {
    assert done[..i + 1][..i] == done[..i];
    if Writes(done[i], k) {
      PatchLands(ReplayAll(done[..i]), done[i], k, patch);
    } else {
      ReplayOverlays(ReplayAll(done[..i]), done[i].a, done[i].obs, k);
    }
  }

  /** The document after `n` units is the fold of the landed patches. */
  lemma {:induction false} DocumentIsFold(done: seq<Unit>, patches: seq<Value>, k: Key, from: nat, n: nat)
    requires |done| == |patches| && from <= n <= |done|
    requires forall i :: from <= i < n ==> DocumentSteps(done, k, i, patches[i])
    requires k in ReplayAll(done[..from])
    ensures k in ReplayAll(done[..n])
    ensures ReplayAll(done[..n])[k].data == Fold(done, patches, k, ReplayAll(done[..from])[k].data, from, n)
    decreases n
  {
    if n > from {
      DocumentIsFold(done, patches, k, from, n - 1);
      assert DocumentSteps(done, k, n - 1, patches[n - 1]);
    }
  }

  /** In every run in which, after some point, only token-conditional merge patches
      change an entity: each patch that lands was applied to exactly the document its
      token named, no two name the same token, the token advances with each (an
      empty patch included), and the document is the fold of the landed patches. */
  lemma PatchesFold(es: seq<Event>, tr: Trace, patches: seq<Value>, k: Key, from: nat)
    requires Leads(EMPTY_TRACE, es, tr) && forall e :: e in es ==> Spares(e, k)
    requires |patches| == |tr.done| && from <= |tr.done| && OnlyPatches(tr.done, patches, k, from)
    requires k in ReplayAll(tr.done[..from])
    ensures k in Current(tr.w.s.rows)
    ensures Current(tr.w.s.rows)[k].data ==
      Fold(tr.done, patches, k, ReplayAll(tr.done[..from])[k].data, from, |tr.done|)
    ensures forall i :: from <= i < |tr.done| && Writes(tr.done[i], k) ==> AppliedToItsToken(tr.done, i, k)
    ensures forall i, j :: from <= i < j < |tr.done| && Writes(tr.done[i], k) && Writes(tr.done[j], k) ==>
              tr.done[i].obs[1].expected != tr.done[j].obs[1].expected
  {
    SerialRun(es, tr, k);
    forall i | from <= i < |tr.done| ensures DocumentSteps(tr.done, k, i, patches[i]) {
      DocumentAfter(tr.done, k, i, patches[i]);
    }
    DocumentIsFold(tr.done, patches, k, from, |tr.done|);
    assert tr.done[..|tr.done|] == tr.done;
    PatchTokens(tr.done, patches, k, from);
  }

  lemma PatchTokens(done: seq<Unit>, patches: seq<Value>, k: Key, from: nat)
    requires |done| == |patches| && from <= |done| && OnlyPatches(done, patches, k, from)
    requires SerialChain(done) && Distinct(done) && Spared(done, k)
    ensures forall i :: from <= i < |done| && Writes(done[i], k) ==> AppliedToItsToken(done, i, k)
    ensures forall i, j :: from <= i < j < |done| && Writes(done[i], k) && Writes(done[j], k) ==>
              done[i].obs[1].expected != done[j].obs[1].expected
  {
    forall i | from <= i < |done| && Writes(done[i], k) ensures AppliedToItsToken(done, i, k) {
      LandingAdvances(done, k, i, patches[i]);
    }
    forall i, j | from <= i < j < |done| && Writes(done[i], k) && Writes(done[j], k)
      ensures done[i].obs[1].expected != done[j].obs[1].expected
    {
      PatchSwaps(done[i], k, patches[i]);
      PatchSwaps(done[j], k, patches[j]);
      TokensMove(done, i, j, k, done[i].obs[1].expected, done[j].obs[1].expected);
    }
  }
}
