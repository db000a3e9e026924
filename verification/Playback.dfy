/** What Cascade computes on one transaction is what happens to it in a run: callbacks and
    savepoints of a transaction as events of the state machine, with the events of
    everybody else in between. */
module Playback {
  import opened Json
  import opened Versions
  import opened Transactions
  import opened TxSystem
  import opened Isolation
  import opened Cascade

  /** One beat of a run seen from transaction `t`: somebody else's event, a callback of
      `t`, or a savepoint with all that happens inside it. */
  datatype Beat =
    | Other(e: Event)
    | Fetches(id: Uuid)
    | Puts(id: Uuid, v: Entity)
    | TriesSwap(id: Uuid, v: Entity, expected: Uuid)
    | TriesRemove(id: Uuid)
    | Scope(sp: Uuid, inner: seq<Beat>, ok: bool)

  predicate Elsewhere(e: Event, t: Uuid) {
    e.DirectSave? || e.DirectDelete? || e.t != t
  }

  /** The callback as an event; a refused one (412, 404) is none. */
  function CallOf(s: State, t: Uuid, b: Beat): Option<Event>
    requires t in s.txs && !b.Other? && !b.Scope?
  {
    match b
    case Fetches(id) => Some(Get(t, id))
    case Puts(id, v) => Some(Save(t, id, v))
    case TriesSwap(id, v, expected) =>
      if CasAccepts(s.txs[t], TxRows(s, t, id), id, expected) then Some(CompareAndSave(t, id, v, expected)) else None
    case TriesRemove(id) => if DeleteAccepts(s.txs[t], TxRows(s, t, id), id) then Some(Delete(t, id)) else None
  }

  function OpOf(s: State, t: Uuid, b: Beat): Op
    requires t in s.txs && !b.Other? && !b.Scope?
  {
    match b
    case Fetches(id) => Fetch(id)
    case Puts(id, v) => Put(id, v)
    case TriesSwap(id, v, expected) => Swap(id, v, expected, TxRows(s, t, id))
    case TriesRemove(id) => Remove(id, TxRows(s, t, id))
  }

  /** The beat happens: whatever event it stands for is enabled. */
  predicate CanPlay(s: State, t: Uuid, b: Beat)
    decreases b, 2
  {
    t in s.txs &&
    match b
    case Other(e) => Elsewhere(e, t) && Enabled(s, e)
    case Scope(sp, inner, ok) =>
      && Enabled(s, TakeSavepoint(t, sp))
      && CanPlayAll(Next(s, TakeSavepoint(t, sp)), t, inner)
      && Enabled(PlayAll(Next(s, TakeSavepoint(t, sp)), t, inner), Closing(t, sp, ok))
    case _ => CallOf(s, t, b).Some? ==> Enabled(s, CallOf(s, t, b).value)
  }

  function Closing(t: Uuid, sp: Uuid, ok: bool): Event {
    if ok then DropSavepoint(t, sp) else RollbackToSavepoint(t, sp)
  }

  function Play(s: State, t: Uuid, b: Beat): State
    requires CanPlay(s, t, b)
    decreases b, 3
  {
    match b
    case Other(e) => Next(s, e)
    case Scope(sp, inner, ok) => Next(PlayAll(Next(s, TakeSavepoint(t, sp)), t, inner), Closing(t, sp, ok))
    case _ => if CallOf(s, t, b).Some? then Next(s, CallOf(s, t, b).value) else s
  }

  predicate CanPlayAll(s: State, t: Uuid, bs: seq<Beat>)
    decreases bs, 0
  {
    t in s.txs && (bs != [] ==> CanPlay(s, t, bs[0]) && CanPlayAll(Play(s, t, bs[0]), t, bs[1..]))
  }

  function PlayAll(s: State, t: Uuid, bs: seq<Beat>): State
    requires CanPlayAll(s, t, bs)
    decreases bs, 1
  {
    if bs == [] then s else PlayAll(Play(s, t, bs[0]), t, bs[1..])
  }

  function OpsIn(s: State, t: Uuid, b: Beat): seq<Op>
    requires CanPlay(s, t, b)
    decreases b, 1
  {
    match b
    case Other(_) => []
    case Scope(sp, inner, ok) => [Isolated(sp, OpsOf(Next(s, TakeSavepoint(t, sp)), t, inner), ok)]
    case _ => [OpOf(s, t, b)]
  }

  /** The operations of `t` among the beats, each with the rows it met. */
  function OpsOf(s: State, t: Uuid, bs: seq<Beat>): seq<Op>
    requires CanPlayAll(s, t, bs)
    decreases bs, 0
  {
    if bs == [] then [] else OpsIn(s, t, bs[0]) + OpsOf(Play(s, t, bs[0]), t, bs[1..])
  }

  // --- others leave the transaction alone --------------------------------

  lemma OthersKeepTx(s: State, e: Event, t: Uuid)
    requires Enabled(s, e) && Elsewhere(e, t) && t in s.txs
    ensures t in Next(s, e).txs && Next(s, e).txs[t] == s.txs[t]
  {
  }

  lemma CallRuns(s: State, t: Uuid, b: Beat)
    requires CanPlay(s, t, b) && !b.Other? && !b.Scope?
    ensures t in Play(s, t, b).txs && Play(s, t, b).txs[t] == RunOp(s.txs[t], OpOf(s, t, b))
  {
  }

  lemma RunOpsCons(tx: Tx, op: Op, ops: seq<Op>)
    ensures RunOps(tx, [op] + ops) == RunOps(RunOp(tx, op), ops)
  {
    assert ([op] + ops)[1..] == ops;
  }

  /** In any run in which the operations of `t` are these, whatever others do in between,
      its transaction object ends as RunOps says. */
  lemma {:induction false} RunsAsComputed(s: State, t: Uuid, bs: seq<Beat>)
    requires CanPlayAll(s, t, bs)
    ensures t in PlayAll(s, t, bs).txs && PlayAll(s, t, bs).txs[t] == RunOps(s.txs[t], OpsOf(s, t, bs))
    decreases bs, 0
  {
    if bs != [] {
      var b, rest := bs[0], OpsOf(Play(s, t, bs[0]), t, bs[1..]);
      RunsAsComputed(Play(s, t, b), t, bs[1..]);
      if b.Other? {
        OthersKeepTx(s, b.e, t);
        assert [] + rest == rest;
      } else if b.Scope? {
        ScopeRuns(s, t, b);
        RunOpsCons(s.txs[t], Isolated(b.sp, OpsOf(Next(s, TakeSavepoint(t, b.sp)), t, b.inner), b.ok), rest);
      } else {
        CallRuns(s, t, b);
        RunOpsCons(s.txs[t], OpOf(s, t, b), rest);
      }
    }
  }

  lemma {:induction false} ScopeRuns(s: State, t: Uuid, b: Beat)
    requires CanPlay(s, t, b) && b.Scope?
    ensures t in Play(s, t, b).txs
    ensures Play(s, t, b).txs[t] ==
            RunOp(s.txs[t], Isolated(b.sp, OpsOf(Next(s, TakeSavepoint(t, b.sp)), t, b.inner), b.ok))
    decreases b, 1
  {
    var s1 := Next(s, TakeSavepoint(t, b.sp));
    RunsAsComputed(s1, t, b.inner);
    ScopeCloses(s.txs[t], b.sp, OpsOf(s1, t, b.inner), b.ok, PlayAll(s1, t, b.inner), t);
  }

  /** Leaving a savepoint is what RunIsolated says, because its nesting is linear. */
  lemma ScopeCloses(tx: Tx, sp: Uuid, ops: seq<Op>, ok: bool, s: State, t: Uuid)
    requires sp !in tx.savepoints && t in s.txs && s.txs[t] == RunOps(MakeSavepoint(tx, sp), ops)
    requires Enabled(s, Closing(t, sp, ok))
    ensures t in Next(s, Closing(t, sp, ok)).txs
    ensures Next(s, Closing(t, sp, ok)).txs[t] == RunIsolated(tx, sp, ops, ok)
  {
    OpsKeepSavepoints(MakeSavepoint(tx, sp), ops);
    if !ok {
      SavepointStartsGrowth(tx, sp);
      OpsStayGrown(tx, sp, MakeSavepoint(tx, sp), ops);
      LinearRollbackTruncates(tx, sp, s.txs[t], SpareOf(s, t));
    }
  }

  /** In linear nesting the rollback is always possible: it never panics. */
  lemma ScopesNeverPanic(tx: Tx, sp: Uuid, ops: seq<Op>, spare: Spare)
    requires sp !in tx.savepoints
    ensures
      var worked := RunOps(MakeSavepoint(tx, sp), ops);
      sp in worked.savepoints && RollbackIn(worked, spare, sp) == Ended(tx)
  {
    OpsKeepSavepoints(MakeSavepoint(tx, sp), ops);
    SavepointStartsGrowth(tx, sp);
    OpsStayGrown(tx, sp, MakeSavepoint(tx, sp), ops);
    LinearRollbackTruncates(tx, sp, RunOps(MakeSavepoint(tx, sp), ops), spare);
    FailureLeavesNoTrace(tx, sp, ops);
  }

  // --- beats are runs ----------------------------------------------------

  predicate CanExec(s: State, es: seq<Event>)
    decreases |es|
  {
    es != [] ==> Enabled(s, es[0]) && CanExec(Next(s, es[0]), es[1..])
  }

  function Exec(s: State, es: seq<Event>): State
    requires CanExec(s, es)
    decreases |es|
  {
    if es == [] then s else Exec(Next(s, es[0]), es[1..])
  }

  /** Runs of worlds are these, with history variables beside them. */
  lemma {:induction false} RunsExec(w: World, es: seq<Event>) returns (w': World)
    requires CanExec(w.s, es)
    ensures Runs(w, es, w') && w'.s == Exec(w.s, es)
    decreases |es|
  {
    if es == [] {
      w' := w;
    } else {
      w' := RunsExec(Step(w, es[0]), es[1..]);
    }
  }

  lemma {:induction false} ExecAppends(s: State, es: seq<Event>, more: seq<Event>)
    requires CanExec(s, es) && CanExec(Exec(s, es), more)
    ensures CanExec(s, es + more) && Exec(s, es + more) == Exec(Exec(s, es), more)
    decreases |es|
  {
    if es == [] {
      assert es + more == more;
    } else {
      assert (es + more)[1..] == es[1..] + more;
      ExecAppends(Next(s, es[0]), es[1..], more);
    }
  }

  function EventsIn(s: State, t: Uuid, b: Beat): seq<Event>
    requires CanPlay(s, t, b)
    decreases b, 1
  {
    match b
    case Other(e) => [e]
    case Scope(sp, inner, ok) =>
      [TakeSavepoint(t, sp)] + EventsOf(Next(s, TakeSavepoint(t, sp)), t, inner) + [Closing(t, sp, ok)]
    case _ => if CallOf(s, t, b).Some? then [CallOf(s, t, b).value] else []
  }

  function EventsOf(s: State, t: Uuid, bs: seq<Beat>): seq<Event>
    requires CanPlayAll(s, t, bs)
    decreases bs, 0
  {
    if bs == [] then [] else EventsIn(s, t, bs[0]) + EventsOf(Play(s, t, bs[0]), t, bs[1..])
  }

  lemma {:induction false} BeatIsExec(s: State, t: Uuid, b: Beat)
    requires CanPlay(s, t, b)
    ensures CanExec(s, EventsIn(s, t, b)) && Exec(s, EventsIn(s, t, b)) == Play(s, t, b)
    decreases b, 1
  {
    if b.Scope? {
      var opening, inside := TakeSavepoint(t, b.sp), Next(s, TakeSavepoint(t, b.sp));
      BeatsAreExec(inside, t, b.inner);
      OneExec(s, opening);
      ExecAppends(s, [opening], EventsOf(inside, t, b.inner));
      var end := PlayAll(inside, t, b.inner);
      OneExec(end, Closing(t, b.sp, b.ok));
      ExecAppends(s, [opening] + EventsOf(inside, t, b.inner), [Closing(t, b.sp, b.ok)]);
    } else if b.Other? {
      OneExec(s, b.e);
    } else if CallOf(s, t, b).Some? {
      OneExec(s, CallOf(s, t, b).value);
    }
  }

  lemma OneExec(s: State, e: Event)
    requires Enabled(s, e)
    ensures CanExec(s, [e]) && Exec(s, [e]) == Next(s, e)
  {
    assert [e][1..] == [];
  }

  lemma {:induction false} BeatsAreExec(s: State, t: Uuid, bs: seq<Beat>)
    requires CanPlayAll(s, t, bs)
    ensures CanExec(s, EventsOf(s, t, bs)) && Exec(s, EventsOf(s, t, bs)) == PlayAll(s, t, bs)
    decreases bs, 0
  {
    if bs != [] {
      BeatIsExec(s, t, bs[0]);
      BeatsAreExec(Play(s, t, bs[0]), t, bs[1..]);
      ExecAppends(s, EventsIn(s, t, bs[0]), EventsOf(Play(s, t, bs[0]), t, bs[1..]));
    }
  }

  // --- a segment boundary in a run ---------------------------------------

  /** The events of `t` among `es`. */
  function Own(es: seq<Event>, t: Uuid): seq<Event> {
    if es == [] then [] else (if Elsewhere(es[0], t) then [] else [es[0]]) + Own(es[1..], t)
  }

  /** `t` as each commit of it in the run recorded it. */
  function Landed(s: State, es: seq<Event>, t: Uuid): seq<Tx>
    requires CanExec(s, es)
    decreases |es|
  {
    if es == [] then []
    else LandedBy(s, es[0], t) + Landed(Next(s, es[0]), es[1..], t)
  }

  function LandedBy(s: State, e: Event, t: Uuid): seq<Tx>
    requires Enabled(s, e)
  {
    if e == CommitRecord(t) then [s.txs[t]] else []
  }

  /** The answers of first-committer-wins to `t`: true is no conflict. */
  function Verdicts(s: State, es: seq<Event>, t: Uuid): seq<bool>
    requires CanExec(s, es)
    decreases |es|
  {
    if es == [] then []
    else VerdictOn(s, es[0], t) + Verdicts(Next(s, es[0]), es[1..], t)
  }

  function VerdictOn(s: State, e: Event, t: Uuid): seq<bool>
    requires Enabled(s, e)
  {
    if e == CommitCheck(t) then [!Conflicts(s.log, Baseline(s, t), s.txs[t])] else []
  }

  predicate HeldBy(s: State, t: Uuid) {
    !s.holder.Free? && s.holder.tx == t
  }

  lemma OthersKeepHold(s: State, e: Event, t: Uuid)
    requires Enabled(s, e) && Elsewhere(e, t)
    ensures HeldBy(Next(s, e), t) <==> HeldBy(s, t)
  {
  }

  /** Up to the first event of `t`, or to the end if there is none, the others leave its
      transaction and its hold on the lock alone. */
  lemma {:induction false} SkipOthers(s: State, es: seq<Event>, t: Uuid) returns (r: State, rest: seq<Event>)
    requires CanExec(s, es) && t in s.txs
    ensures t in r.txs && r.txs[t] == s.txs[t] && (HeldBy(r, t) <==> HeldBy(s, t))
    ensures if Own(es, t) == [] then r == Exec(s, es) && Landed(s, es, t) == [] && Verdicts(s, es, t) == []
            else
              var e := Own(es, t)[0];
              && Enabled(r, e) && CanExec(Next(r, e), rest) && Own(rest, t) == Own(es, t)[1..]
              && Exec(s, es) == Exec(Next(r, e), rest)
              && Landed(s, es, t) == LandedBy(r, e, t) + Landed(Next(r, e), rest, t)
              && Verdicts(s, es, t) == VerdictOn(r, e, t) + Verdicts(Next(r, e), rest, t)
    decreases |es|
  {
    if es == [] {
      r, rest := s, [];
    } else if Elsewhere(es[0], t) {
      OthersKeepTx(s, es[0], t);
      OthersKeepHold(s, es[0], t);
      assert Own(es, t) == Own(es[1..], t);
      r, rest := SkipOthers(Next(s, es[0]), es[1..], t);
    } else {
      r, rest := s, es[1..];
    }
  }

  function Committing(t: Uuid, now: int, commits: bool): seq<Event> {
    [CommitCheck(t)] + if commits then [CommitStamp(t, now), CommitRecord(t)] else []
  }

  function Crossing(t: Uuid, anchor: Uuid, entity: Entity, tenant: Uuid, now: int, commits: bool): seq<Event> {
    [Save(t, anchor, entity)] + ([CommitMark(t, tenant)] + Committing(t, now, commits))
  }

  /** The flush and commit of a boundary, whatever others do in between: what is
      recorded is the transaction with the entity saved, exactly when it meets no conflict. */
  lemma CrossingRecords(s: State, es: seq<Event>, t: Uuid, anchor: Uuid, entity: Entity, tenant: Uuid, now: int,
                        commits: bool)
    requires CanExec(s, es) && t in s.txs
    requires Own(es, t) == Crossing(t, anchor, entity, tenant, now, commits)
    requires !commits ==> !HeldBy(Exec(s, es), t)
    ensures
      var flushed := SaveIn(s.txs[t], anchor, entity);
      && t in Exec(s, es).txs && Exec(s, es).txs[t] == Closed(flushed)
      && Landed(s, es, t) == (if commits then [flushed] else [])
      && Verdicts(s, es, t) == [commits]
  {
    var s', rest := SaveFirst(s, es, t, anchor, entity, [CommitMark(t, tenant)] + Committing(t, now, commits));
    MarkRecords(s', rest, t, tenant, now, commits);
  }

  /** The flush, up to and including the save; the events of `t` left are `tail`. */
  lemma SaveFirst(s: State, es: seq<Event>, t: Uuid, anchor: Uuid, entity: Entity, tail: seq<Event>)
    returns (s': State, rest: seq<Event>)
    requires CanExec(s, es) && t in s.txs && Own(es, t) == [Save(t, anchor, entity)] + tail
    ensures CanExec(s', rest) && Own(rest, t) == tail && Exec(s', rest) == Exec(s, es)
    ensures t in s'.txs && s'.txs[t] == SaveIn(s.txs[t], anchor, entity) && !HeldBy(s', t)
    ensures Landed(s', rest, t) == Landed(s, es, t) && Verdicts(s', rest, t) == Verdicts(s, es, t)
  {
    var r;
    r, rest := SkipOthers(s, es, t);
    SaveSteps(r, t, anchor, entity);
    s' := Next(r, Save(t, anchor, entity));
  }

  lemma MarkRecords(s: State, es: seq<Event>, t: Uuid, tenant: Uuid, now: int, commits: bool)
    requires CanExec(s, es) && t in s.txs && !HeldBy(s, t)
    requires Own(es, t) == [CommitMark(t, tenant)] + Committing(t, now, commits)
    requires !commits ==> !HeldBy(Exec(s, es), t)
    ensures t in Exec(s, es).txs && Exec(s, es).txs[t] == Closed(s.txs[t])
    ensures Landed(s, es, t) == (if commits then [s.txs[t]] else []) && Verdicts(s, es, t) == [commits]
  {
    var r, rest := SkipOthers(s, es, t);
    MarkSteps(r, t, tenant);
    assert Own(rest, t) == Committing(t, now, commits);
    CheckRecords(Next(r, CommitMark(t, tenant)), rest, t, now, commits);
  }

  lemma CheckRecords(s: State, es: seq<Event>, t: Uuid, now: int, commits: bool)
    requires CanExec(s, es) && t in s.txs && !HeldBy(s, t)
    requires Own(es, t) == Committing(t, now, commits)
    requires !commits ==> !HeldBy(Exec(s, es), t)
    ensures t in Exec(s, es).txs && Exec(s, es).txs[t] == Closed(s.txs[t])
    ensures Landed(s, es, t) == (if commits then [s.txs[t]] else []) && Verdicts(s, es, t) == [commits]
  {
    var r, rest := SkipOthers(s, es, t);
    CheckSteps(r, t);
    if commits {
      StampRecords(Next(r, CommitCheck(t)), rest, t, now);
    } else {
      var r', rest' := SkipOthers(Next(r, CommitCheck(t)), rest, t);
    }
  }

  lemma StampRecords(s: State, es: seq<Event>, t: Uuid, now: int)
    requires CanExec(s, es) && t in s.txs && Own(es, t) == [CommitStamp(t, now), CommitRecord(t)]
    ensures HeldBy(s, t) && t in Exec(s, es).txs && Exec(s, es).txs[t] == Closed(s.txs[t])
    ensures Landed(s, es, t) == [s.txs[t]] && Verdicts(s, es, t) == []
  {
    var r, rest := SkipOthers(s, es, t);
    StampSteps(r, t, now);
    var r', rest' := SkipOthers(Next(r, CommitStamp(t, now)), rest, t);
    RecordSteps(r', t);
    var last, none := SkipOthers(Next(r', CommitRecord(t)), rest', t);
  }

  lemma SaveSteps(s: State, t: Uuid, id: Uuid, v: Entity)
    requires Enabled(s, Save(t, id, v))
    ensures
      var s' := Next(s, Save(t, id, v));
      t in s'.txs && s'.txs[t] == SaveIn(s.txs[t], id, v) && !HeldBy(s', t)
  {
  }

  lemma MarkSteps(s: State, t: Uuid, tenant: Uuid)
    requires Enabled(s, CommitMark(t, tenant))
    ensures var s' := Next(s, CommitMark(t, tenant)); s'.txs == s.txs && s'.holder == s.holder
  {
  }

  /** A check that is refused closes the transaction; one that passes holds the lock. */
  lemma CheckSteps(s: State, t: Uuid)
    requires Enabled(s, CommitCheck(t))
    ensures
      var s' := Next(s, CommitCheck(t));
      && t in s'.txs && s'.txs[t] == (if HeldBy(s', t) then s.txs[t] else Closed(s.txs[t]))
      && (HeldBy(s', t) <==> !Conflicts(s.log, Baseline(s, t), s.txs[t]))
  {
  }

  lemma StampSteps(s: State, t: Uuid, now: int)
    requires Enabled(s, CommitStamp(t, now))
    ensures HeldBy(s, t) && Next(s, CommitStamp(t, now)).txs == s.txs
  {
  }

  lemma RecordSteps(s: State, t: Uuid)
    requires Enabled(s, CommitRecord(t))
    ensures var s' := Next(s, CommitRecord(t)); t in s'.txs && s'.txs[t] == Closed(s.txs[t])
  {
  }

  // --- a transition in a run ---------------------------------------------

  /** How one processor shows in a run: work of the open transaction, or a boundary
      commit followed by work of the transaction begun next. */
  datatype Stage =
    | Working(beats: seq<Beat>)
    | Crosses(es: seq<Event>, tenant: Uuid, now: int, next: Uuid, beats: seq<Beat>)

  /** What the run must hold for this processor: the calls its reply names, and at a
      boundary the events of the commit, then the calls and the compare-and-save. */
  predicate Performs(s: State, t: Uuid, anchor: Uuid, entity: Entity, p: Processor, g: Stage)
    requires t in s.txs
  {
    if p.internalized || p.mode != CommitBeforeDispatch then
      g.Working? && CanPlayAll(s, t, g.beats) && OpsOf(s, t, g.beats) == InlineOps(s.txs[t], entity, p)
    else
      && g.Crosses? && CanExec(s, g.es)
      && Own(g.es, t) == Crossing(t, anchor, entity, g.tenant, g.now, p.boundary.commits)
      && if !p.boundary.commits then !HeldBy(Exec(s, g.es), t) && g.next == t && g.beats == []
      else
        && g.next in Exec(s, g.es).txs && Exec(s, g.es).txs[g.next] == p.boundary.post && p.boundary.post.id == g.next
        && CanPlayAll(Exec(s, g.es), g.next, g.beats)
        && OpsOf(Exec(s, g.es), g.next, g.beats) == BoundaryOps(t, anchor, entity, p)
  }

  function InlineOps(tx: Tx, entity: Entity, p: Processor): seq<Op> {
    if p.internalized then []
    else if p.mode != AsyncNewTx then p.react(Some(tx), entity).ops
    else if p.sp in tx.savepoints then []
    else
      var reply := p.react(Some(MakeSavepoint(tx, p.sp)), entity);
      [Isolated(p.sp, reply.ops, reply.ok)]
  }

  function BoundaryOps(t: Uuid, anchor: Uuid, entity: Entity, p: Processor): seq<Op> {
    var reply := BoundaryReply(entity, p);
    (if p.boundary.joined then reply.ops else []) +
    if reply.ok then [Swap(anchor, WithData(entity, reply.data), t, p.boundary.vs)] else []
  }

  /** The state the stage ends in, and the transaction open there. */
  function EndOf(s: State, t: Uuid, anchor: Uuid, entity: Entity, p: Processor, g: Stage): State
    requires t in s.txs && Performs(s, t, anchor, entity, p, g)
  {
    if g.Working? then PlayAll(s, t, g.beats)
    else if g.beats == [] then Exec(s, g.es) else PlayAll(Exec(s, g.es), g.next, g.beats)
  }

  function OpenAfter(t: Uuid, g: Stage): Uuid {
    if g.Working? then t else g.next
  }

  function LandedIn(s: State, t: Uuid, anchor: Uuid, entity: Entity, p: Processor, g: Stage): seq<Tx>
    requires t in s.txs && Performs(s, t, anchor, entity, p, g)
  {
    if g.Working? then [] else Landed(s, g.es, t)
  }

  lemma InlineOpsRun(tx: Tx, anchor: Uuid, entity: Entity, p: Processor)
    requires p.internalized || p.mode != CommitBeforeDispatch
    ensures Dispatch(tx, anchor, entity, p).tx == RunOps(tx, InlineOps(tx, entity, p))
    ensures Dispatch(tx, anchor, entity, p).committed == []
  {
    if !p.internalized && p.mode == AsyncNewTx && p.sp !in tx.savepoints {
      var reply := p.react(Some(MakeSavepoint(tx, p.sp)), entity);
      RunOpsCons(tx, Isolated(p.sp, reply.ops, reply.ok), []);
      assert [Isolated(p.sp, reply.ops, reply.ok)] + [] == [Isolated(p.sp, reply.ops, reply.ok)];
    }
  }

  lemma {:induction false} RunOpsLast(tx: Tx, ops: seq<Op>, op: Op)
    ensures RunOps(tx, ops + [op]) == RunOp(RunOps(tx, ops), op)
    decreases |ops|
  {
    if ops == [] {
      assert ops + [op] == [op];
    } else {
      assert (ops + [op])[1..] == ops[1..] + [op];
      RunOpsLast(RunOp(tx, ops[0]), ops[1..], op);
    }
  }

  lemma BoundaryOpsRun(tx: Tx, anchor: Uuid, entity: Entity, p: Processor)
    requires !p.internalized && p.mode == CommitBeforeDispatch && p.boundary.commits
    ensures Dispatch(tx, anchor, entity, p).tx == RunOps(p.boundary.post, BoundaryOps(tx.id, anchor, entity, p))
    ensures Dispatch(tx, anchor, entity, p).committed == [SaveIn(tx, anchor, entity)]
  {
    var reply := BoundaryReply(entity, p);
    var calls := if p.boundary.joined then reply.ops else [];
    assert RunOps(p.boundary.post, calls) == AfterReply(entity, p);
    if reply.ok {
      RunOpsLast(p.boundary.post, calls, Swap(anchor, WithData(entity, reply.data), tx.id, p.boundary.vs));
    } else {
      assert calls + [] == calls;
    }
  }

  /** The stage does to the transactions what Dispatch computes: the open one is its
      result, what landed is what it says was committed, and a boundary commits exactly
      when first-committer-wins finds no conflict. */
  lemma StageIsDispatch(s: State, t: Uuid, anchor: Uuid, entity: Entity, p: Processor, g: Stage)
    requires t in s.txs && s.txs[t].id == t && Performs(s, t, anchor, entity, p, g)
    ensures
      var d, s', t' := Dispatch(s.txs[t], anchor, entity, p), EndOf(s, t, anchor, entity, p, g), OpenAfter(t, g);
      && t' in s'.txs && t' == d.tx.id && Closed(s'.txs[t']) == Closed(d.tx) && (d.ok ==> s'.txs[t'] == d.tx)
      && LandedIn(s, t, anchor, entity, p, g) == d.committed
      && (g.Crosses? ==> Verdicts(s, g.es, t) == [p.boundary.commits])
  {
    if g.Working? {
      RunsAsComputed(s, t, g.beats);
      InlineOpsRun(s.txs[t], anchor, entity, p);
      OpsKeepIdentity(s.txs[t], InlineOps(s.txs[t], entity, p));
    } else {
      CrossingRecords(s, g.es, t, anchor, entity, g.tenant, g.now, p.boundary.commits);
      if p.boundary.commits {
        RunsAsComputed(Exec(s, g.es), g.next, g.beats);
        BoundaryOpsRun(s.txs[t], anchor, entity, p);
        OpsKeepIdentity(p.boundary.post, BoundaryOps(t, anchor, entity, p));
      }
    }
  }

  /** The whole transition in a run, stage by stage until one stops it. */
  predicate PerformsAll(s: State, t: Uuid, anchor: Uuid, entity: Entity, ps: seq<Processor>, gs: seq<Stage>)
    requires t in s.txs
    decreases |ps|
  {
    if ps == [] then gs == []
    else
      && gs != [] && Performs(s, t, anchor, entity, ps[0], gs[0])
      && var d, s' := Dispatch(s.txs[t], anchor, entity, ps[0]), EndOf(s, t, anchor, entity, ps[0], gs[0]);
         if d.ok then
           OpenAfter(t, gs[0]) in s'.txs && PerformsAll(s', OpenAfter(t, gs[0]), anchor, d.entity, ps[1..], gs[1..])
         else gs[1..] == []
  }

  /** What it ends with: the state, the transaction open there, and all that landed. */
  function Outcome(s: State, t: Uuid, anchor: Uuid, entity: Entity, ps: seq<Processor>, gs: seq<Stage>)
    : (State, Uuid, seq<Tx>)
    requires t in s.txs && PerformsAll(s, t, anchor, entity, ps, gs)
    decreases |ps|
  {
    if ps == [] then (s, t, [])
    else
      var d, s' := Dispatch(s.txs[t], anchor, entity, ps[0]), EndOf(s, t, anchor, entity, ps[0], gs[0]);
      var landed := LandedIn(s, t, anchor, entity, ps[0], gs[0]);
      if d.ok then
        var rest := Outcome(s', OpenAfter(t, gs[0]), anchor, d.entity, ps[1..], gs[1..]);
        (rest.0, rest.1, landed + rest.2)
      else (s', OpenAfter(t, gs[0]), landed)
  }

  /** Whatever others do meanwhile, a transition leaves the open transaction as Pipeline
      says, and the commits of its boundaries record exactly the segments it lists. */
  lemma {:induction false} TransitionHappens(
      s: State, t: Uuid, anchor: Uuid, entity: Entity, ps: seq<Processor>, gs: seq<Stage>)
    requires t in s.txs && s.txs[t].id == t && PerformsAll(s, t, anchor, entity, ps, gs)
    ensures
      var p, (s', t', landed) := Pipeline(s.txs[t], anchor, entity, ps), Outcome(s, t, anchor, entity, ps, gs);
      && t' in s'.txs && t' == p.tx.id && Closed(s'.txs[t']) == Closed(p.tx) && (p.ok ==> s'.txs[t'] == p.tx)
      && landed == p.committed
    decreases |ps|
  {
    if ps != [] {
      StageIsDispatch(s, t, anchor, entity, ps[0], gs[0]);
      var d, s' := Dispatch(s.txs[t], anchor, entity, ps[0]), EndOf(s, t, anchor, entity, ps[0], gs[0]);
      if d.ok {
        TransitionHappens(s', OpenAfter(t, gs[0]), anchor, d.entity, ps[1..], gs[1..]);
      }
    }
  }

  // --- and it is a run ---------------------------------------------------

  function StageEvents(s: State, t: Uuid, anchor: Uuid, entity: Entity, p: Processor, g: Stage): seq<Event>
    requires t in s.txs && Performs(s, t, anchor, entity, p, g)
  {
    if g.Working? then EventsOf(s, t, g.beats)
    else if g.beats == [] then g.es else g.es + EventsOf(Exec(s, g.es), g.next, g.beats)
  }

  lemma StageIsExec(s: State, t: Uuid, anchor: Uuid, entity: Entity, p: Processor, g: Stage)
    requires t in s.txs && Performs(s, t, anchor, entity, p, g)
    ensures
      var es := StageEvents(s, t, anchor, entity, p, g);
      CanExec(s, es) && Exec(s, es) == EndOf(s, t, anchor, entity, p, g)
  {
    if g.Working? {
      BeatsAreExec(s, t, g.beats);
    } else if g.beats != [] {
      BeatsAreExec(Exec(s, g.es), g.next, g.beats);
      ExecAppends(s, g.es, EventsOf(Exec(s, g.es), g.next, g.beats));
    }
  }

  lemma {:induction false} TransitionIsExec(
      s: State, t: Uuid, anchor: Uuid, entity: Entity, ps: seq<Processor>, gs: seq<Stage>) returns (es: seq<Event>)
    requires t in s.txs && PerformsAll(s, t, anchor, entity, ps, gs)
    ensures CanExec(s, es) && Exec(s, es) == Outcome(s, t, anchor, entity, ps, gs).0
    decreases |ps|
  {
    es := [];
    if ps != [] {
      es := StageEvents(s, t, anchor, entity, ps[0], gs[0]);
      StageIsExec(s, t, anchor, entity, ps[0], gs[0]);
      var d, s' := Dispatch(s.txs[t], anchor, entity, ps[0]), EndOf(s, t, anchor, entity, ps[0], gs[0]);
      if d.ok {
        var more := TransitionIsExec(s', OpenAfter(t, gs[0]), anchor, d.entity, ps[1..], gs[1..]);
        ExecAppends(s, es, more);
        es := es + more;
      }
    }
  }

  /** A transition performed from a world leads a run from there, so all that is proved
      of runs holds of it. */
  lemma TransitionRuns(w: World, t: Uuid, anchor: Uuid, entity: Entity, ps: seq<Processor>, gs: seq<Stage>)
    returns (es: seq<Event>, w': World)
    requires t in w.s.txs && PerformsAll(w.s, t, anchor, entity, ps, gs)
    ensures Runs(w, es, w') && w'.s == Outcome(w.s, t, anchor, entity, ps, gs).0
  {
    es := TransitionIsExec(w.s, t, anchor, entity, ps, gs);
    w' := RunsExec(w, es);
  }
}
