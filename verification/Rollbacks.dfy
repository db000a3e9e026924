/** When a rollback keeps its promise, over every continuation of every run. */
module Rollbacks {
  import opened Json
  import opened Versions
  import opened Transactions
  import opened TxSystem
  import opened Isolation

  /** An id nobody has used. */
  lemma UnusedId(used: set<Uuid>) returns (id: Uuid)
    ensures id !in used && id > 0
  {
    id := 1;
    var below: set<Uuid> := {};
    while id in used
      invariant id > 0 && below <= used && forall x :: x in below ==> x < id
      decreases used - below
    {
      below := below + {id};
      id := id + 1;
    }
  }

  /** Nobody is open, nobody commits, and the commit of `t` waits for the locks. */
  predicate OnlyWaiting(s: State, t: Uuid) {
    s.holder.Free? && s.active == {} && t in s.marked && t in s.txs
  }

  /** Whoever holds the locks can let go of them. */
  lemma LocksAreLetGo(w0: World, es: seq<Event>, w: World, t: Uuid) returns (es': seq<Event>, w': World)
    requires Runs(w0, es, w) && Inv(w) && t in w.s.marked && t !in w.s.active
    requires w.s.holder.Free? || w.s.holder.tx != t
    ensures Runs(w0, es', w') && Inv(w') && w'.s.holder.Free?
    ensures t in w'.s.marked && t !in w'.s.active && w'.s.txs[t] == w.s.txs[t]
  {
    es', w' := es, w;
    if w'.s.holder.Checked? {
      var u := w'.s.holder.tx;
      HolderKeepsInv(w', Stamped(u, NextStamp(w'.s.floor, 0)), NextStamp(w'.s.floor, 0),
                     StampTaken(w'.s, u, NextStamp(w'.s.floor, 0)));
      es', w' := Stamps(w0, es', w', u, 0);
    }
    if w'.s.holder.Stamped? {
      var u := w'.s.holder.tx;
      RecordKeepsInv(w', u);
      es', w' := Records(w0, es', w', u);
    }
  }

  lemma SomeMember<T>(s: set<T>) returns (x: T)
    requires s != {}
    ensures x in s
  {
    x :| x in s;
  }

  /** Everybody else can give up. */
  lemma {:induction false} OthersRollBack(w0: World, es: seq<Event>, w: World, t: Uuid)
    returns (es': seq<Event>, w': World)
    requires Runs(w0, es, w) && Inv(w) && w.s.holder.Free? && t in w.s.marked && t !in w.s.active
    ensures Runs(w0, es', w') && Inv(w') && OnlyWaiting(w'.s, t) && w'.s.txs[t] == w.s.txs[t]
    decreases w.s.active
  {
    if w.s.active == {} {
      es', w' := es, w;
    } else {
      var u := SomeMember(w.s.active);
      UndoneKeepsInv(w, u);
      es', w' := Undoes(w0, es, w, u);
      es', w' := OthersRollBack(w0, es', w', t);
    }
  }

  /** A commit recorded while nobody else is open empties the log. */
  lemma EmptyCommitPrunes(w0: World, es: seq<Event>, w: World, t: Uuid) returns (es': seq<Event>, w': World)
    requires Runs(w0, es, w) && Inv(w) && OnlyWaiting(w.s, t)
    ensures Runs(w0, es', w') && Inv(w') && OnlyWaiting(w'.s, t) && w'.s.txs[t] == w.s.txs[t] && w'.s.log == []
  {
    var n := UnusedId(w.s.txs.Keys + w.s.committing);
    es', w' := OpenAndMark(w0, es, w, n, t);
    es', w' := CheckAndStamp(w0, es', w', n, t);
    RecordKeepsInv(w', n);
    RecordAlonePrunes(w'.s, n);
    es', w' := Records(w0, es', w', n);
  }

  lemma CheckAndStamp(w0: World, es: seq<Event>, w: World, n: Uuid, t: Uuid) returns (es': seq<Event>, w': World)
    requires Runs(w0, es, w) && Inv(w) && w.s.holder.Free? && w.s.active == {n} && n in w.s.marked
    requires t in w.s.marked && t in w.s.txs && n != t
    requires n in w.s.txs && w.s.txs[n].readSet == {} == w.s.txs[n].writeSet
    ensures Runs(w0, es', w') && Inv(w') && Recording(w'.s, n) && w'.s.active == {n}
    ensures t in w'.s.marked && w'.s.txs == w.s.txs
  {
    assert !Conflicts(w.s.log, Baseline(w.s, n), w.s.txs[n]);
    HolderKeepsInv(w, Checked(n), w.s.floor, Passed(w.s, n));
    es', w' := Passes(w0, es, w, n);
    HolderKeepsInv(w', Stamped(n, NextStamp(w'.s.floor, 0)), NextStamp(w'.s.floor, 0),
                   StampTaken(w'.s, n, NextStamp(w'.s.floor, 0)));
    es', w' := Stamps(w0, es', w', n, 0);
  }

  lemma OpenAndMark(w0: World, es: seq<Event>, w: World, n: Uuid, t: Uuid) returns (es': seq<Event>, w': World)
    requires Runs(w0, es, w) && Inv(w) && OnlyWaiting(w.s, t) && n !in w.s.txs && n !in w.s.committing && n > 0
    ensures Runs(w0, es', w') && Inv(w') && w'.s.holder.Free? && w'.s.active == {n} && n in w'.s.marked
    ensures t in w'.s.marked && t in w'.s.txs && w'.s.txs[t] == w.s.txs[t] && n != t
    ensures n in w'.s.txs && w'.s.txs[n].readSet == {} == w'.s.txs[n].writeSet
  {
    BeginKeepsInv(w, n, 1, 0);
    es', w' := Begins(w0, es, w, n, 1, 0);
    MarkKeepsInv(w', n);
    es', w' := Marks(w0, es', w', n);
  }

  lemma RecordAlonePrunes(s: State, n: Uuid)
    requires Recording(s, n) && s.active == {n}
    ensures Recorded(s, n).log == [] && Recorded(s, n).active == {}
  {
    var s' := Recorded(s, n);
    assert s.active - {n} == {};
    assert Snapshots(s') == {};
    PruneToNothing(s.log + [Committed(n, s.holder.stamp, s.commitSeq + 1, s.txs[n].writeSet)], Snapshots(s'));
  }

  /** A commit that waits survives the rollback: there is a run on from there, in
      which everybody else lets go, that records it and publishes its writes. */
  lemma WaitingCommitSurvives(w: World, t: Uuid) returns (es: seq<Event>, w': World)
    requires Inv(w) && Enabled(w.s, Rollback(t)) && t in w.s.marked
    ensures Runs(Step(w, Rollback(t)), es, w') && CommitRecord(t) in es
    ensures Published(w'.s.rows, w.s.txs[t])
  {
    UndoneKeepsInv(w, t);
    assert Step(w, Rollback(t)) == w.(s := Undone(w.s, t));
    es, w' := WaitingCommitLands(w.(s := Undone(w.s, t)), t);
  }

  lemma WaitingCommitLands(w: World, t: Uuid) returns (es: seq<Event>, w': World)
    requires Inv(w) && t in w.s.marked && t !in w.s.active && (w.s.holder.Free? || w.s.holder.tx != t)
    ensures Runs(w, es, w') && CommitRecord(t) in es && Published(w'.s.rows, w.s.txs[t])
  {
    es, w' := LocksAreLetGo(w, [], w, t);
    es, w' := OthersRollBack(w, es, w', t);
    es, w' := EmptyCommitPrunes(w, es, w', t);
    assert TxOk(w'.s.txs[t]);
    es, w' := WaitingCommitPublishes(w, es, w', t, 0);
  }

  /** Some run from here records a commit of `t`, which is what makes writes visible. */
  ghost predicate MayStillPublish(w: World, t: Uuid) {
    exists es, w' :: Runs(w, es, w') && CommitRecord(t) in es
  }

  /** A rollback keeps the transaction's writes from ever becoming visible exactly when
      no Commit of it is already waiting for the locks. Commit does not look again at
      the closed flag, and a conflict it would have met may be pruned before it looks. */
  lemma RollbackDiscardsExactlyWhen(w: World, t: Uuid)
    requires Inv(w) && Enabled(w.s, Rollback(t))
    ensures MayStillPublish(Step(w, Rollback(t)), t) <==> t in w.s.marked
  {
    var w0 := Step(w, Rollback(t));
    if t in w.s.marked {
      var es, w' := WaitingCommitSurvives(w, t);
    } else {
      forall es, w' | Runs(w0, es, w') ensures CommitRecord(t) !in es {
        FinishedForGood(w0, es, w', t);
      }
    }
  }
}
