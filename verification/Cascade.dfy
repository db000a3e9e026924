/** The processor pipeline of a workflow transition
    (internal/domain/workflow/engine_processors.go): SYNC and ASYNC_SAME_TX
    processors work in the transaction directly, an ASYNC_NEW_TX processor works
    inside a savepoint and may fail without failing the transition, and a
    COMMIT_BEFORE_DISPATCH processor ends one transaction and opens the next. */
module Cascade {
  import opened Json
  import opened Versions
  import opened Transactions
  import opened TxSystem
  import opened Isolation
  import Manager

  /** What joined callbacks do under the transaction's token. A callback may run
      a workflow of its own, whose ASYNC_NEW_TX processors nest savepoints. */
  datatype Op =
    | Fetch(id: Uuid)
    | Put(id: Uuid, e: Entity)
    | Swap(id: Uuid, e: Entity, expected: Uuid, vs: seq<Row>)  // on these committed rows
    | Remove(id: Uuid, vs: seq<Row>)
    | Isolated(sp: Uuid, ops: seq<Op>, ok: bool)

  /** A refused callback (412, 404) leaves the transaction as it was. */
  function RunOp(tx: Tx, op: Op): Tx
    decreases op, 1
  {
    match op
    case Fetch(id) => AfterGet(tx, id)
    case Put(id, e) => SaveIn(tx, id, e)
    case Swap(id, e, expected, vs) => if CasAccepts(tx, vs, id, expected) then SaveIn(tx, id, e) else tx
    case Remove(id, vs) => if DeleteAccepts(tx, vs, id) then DeleteIn(tx, id) else tx
    case Isolated(sp, ops, ok) => RunIsolated(tx, sp, ops, ok)
  }

  /** executeAsyncNewTx: savepoint, dispatch, then release or roll back. A
      savepoint id already taken would be a broken id generator. */
  function RunIsolated(tx: Tx, sp: Uuid, ops: seq<Op>, ok: bool): Tx
    decreases ops, 1
  {
    if sp in tx.savepoints then tx
    else
      var worked := RunOps(MakeSavepoint(tx, sp), ops);
      if sp !in worked.savepoints then worked
      else if ok then ReleaseSavepoint(worked, sp)
      else RollbackTo(worked, sp)
  }

  function RunOps(tx: Tx, ops: seq<Op>): Tx
    decreases ops, 0
  {
    if ops == [] then tx else RunOps(RunOp(tx, ops[0]), ops[1..])
  }

  // --- nesting is well bracketed -----------------------------------------

  lemma {:induction false} OpsKeepSavepoints(tx: Tx, ops: seq<Op>)
    ensures RunOps(tx, ops).savepoints == tx.savepoints
    decreases ops, 0
  {
    if ops != [] {
      OpKeepsSavepoints(tx, ops[0]);
      OpsKeepSavepoints(RunOp(tx, ops[0]), ops[1..]);
    }
  }

  lemma {:induction false} OpKeepsSavepoints(tx: Tx, op: Op)
    ensures RunOp(tx, op).savepoints == tx.savepoints
    decreases op, 1
  {
    if op.Isolated? && op.sp !in tx.savepoints {
      OpsKeepSavepoints(MakeSavepoint(tx, op.sp), op.ops);
      assert tx.savepoints[op.sp := SavepointOf(tx)] - {op.sp} == tx.savepoints;
    }
  }

  lemma {:induction false} OpsStayGrown(base: Tx, sp: Uuid, tx: Tx, ops: seq<Op>)
    requires GrownFrom(base, sp, tx) && base.savepoints.Keys <= tx.savepoints.Keys
    ensures GrownFrom(base, sp, RunOps(tx, ops))
    decreases ops, 0
  {
    if ops != [] {
      OpStaysGrown(base, sp, tx, ops[0]);
      OpKeepsSavepoints(tx, ops[0]);
      OpsStayGrown(base, sp, RunOp(tx, ops[0]), ops[1..]);
    }
  }

  lemma {:induction false} OpStaysGrown(base: Tx, sp: Uuid, tx: Tx, op: Op)
    requires GrownFrom(base, sp, tx) && base.savepoints.Keys <= tx.savepoints.Keys
    ensures GrownFrom(base, sp, RunOp(tx, op))
    decreases op, 1
  {
    if !op.Isolated? {
      PlainOpStaysGrown(base, sp, tx, op);
    } else if op.sp !in tx.savepoints {
      IsolatedStaysGrown(base, sp, tx, op.sp, op.ops, op.ok);
    }
  }

  lemma PlainOpStaysGrown(base: Tx, sp: Uuid, tx: Tx, op: Op)
    requires GrownFrom(base, sp, tx) && !op.Isolated?
    ensures GrownFrom(base, sp, RunOp(tx, op))
  {
    WorkStaysGrown(base, sp, tx, op.id, if op.Put? || op.Swap? then op.e else Entity("", Null, NO_ID));
  }

  lemma {:induction false} IsolatedStaysGrown(
      base: Tx, sp: Uuid, tx: Tx, inner: Uuid, ops: seq<Op>, ok: bool)
    requires GrownFrom(base, sp, tx) && base.savepoints.Keys <= tx.savepoints.Keys
    requires inner !in tx.savepoints
    ensures GrownFrom(base, sp, RunIsolated(tx, inner, ops, ok))
    decreases ops, 1
  {
    var inside := MakeSavepoint(tx, inner);
    NestingStaysGrown(base, sp, tx, inner);
    assert base.savepoints.Keys <= inside.savepoints.Keys;
    OpsStayGrown(base, sp, inside, ops);
    OpsKeepSavepoints(inside, ops);
    var worked := RunOps(inside, ops);
    if ok {
      NestingStaysGrown(base, sp, worked, inner);
    } else {
      InnerRollbackStaysGrown(base, sp, worked, inner);
    }
  }

  /** A failed ASYNC_NEW_TX processor leaves no trace at all: not a buffered
      value, not a delete, not a read-set entry, not a superseded version, however
      its own callbacks nested further savepoints. */
  lemma FailureLeavesNoTrace(tx: Tx, sp: Uuid, ops: seq<Op>)
    ensures RunIsolated(tx, sp, ops, false) == tx
  {
    if sp !in tx.savepoints {
      SavepointStartsGrowth(tx, sp);
      OpsStayGrown(tx, sp, MakeSavepoint(tx, sp), ops);
      OpsKeepSavepoints(MakeSavepoint(tx, sp), ops);
      var worked := RunOps(MakeSavepoint(tx, sp), ops);
      RollbackRestores(tx, sp, worked);
      assert tx.savepoints[sp := SavepointOf(tx)] - {sp} == tx.savepoints;
    }
  }

  /** The savepoint id is not used by the work itself; ids are unique. */
  predicate Unused(sp: Uuid, ops: seq<Op>)
    decreases ops
  {
    forall i :: 0 <= i < |ops| && ops[i].Isolated? ==> ops[i].sp != sp && Unused(sp, ops[i].ops)
  }

  function Beside(tx: Tx, sp: Uuid, saved: Savepoint): Tx {
    tx.(savepoints := tx.savepoints[sp := saved])
  }

  /** A savepoint standing by does not change what the work does. */
  lemma {:induction false} OpsRunBeside(tx: Tx, sp: Uuid, saved: Savepoint, ops: seq<Op>)
    requires Unused(sp, ops)
    ensures RunOps(Beside(tx, sp, saved), ops) == Beside(RunOps(tx, ops), sp, saved)
    decreases ops, 0
  {
    if ops != [] {
      OpRunsBeside(tx, sp, saved, ops[0]);
      UnusedTail(sp, ops);
      OpsRunBeside(RunOp(tx, ops[0]), sp, saved, ops[1..]);
    }
  }

  lemma UnusedTail(sp: Uuid, ops: seq<Op>)
    requires Unused(sp, ops) && ops != []
    ensures Unused(sp, ops[1..])
    ensures ops[0].Isolated? ==> ops[0].sp != sp && Unused(sp, ops[0].ops)
  {
    assert forall i :: 0 <= i < |ops[1..]| ==> ops[1..][i] == ops[i + 1];
  }

  lemma {:induction false} OpRunsBeside(tx: Tx, sp: Uuid, saved: Savepoint, op: Op)
    requires op.Isolated? ==> op.sp != sp && Unused(sp, op.ops)
    ensures RunOp(Beside(tx, sp, saved), op) == Beside(RunOp(tx, op), sp, saved)
    decreases op, 1
  {
    if op.Isolated? {
      IsolatedRunsBeside(tx, sp, saved, op.sp, op.ops, op.ok);
    }
  }

  lemma {:induction false} IsolatedRunsBeside(
      tx: Tx, sp: Uuid, saved: Savepoint, inner: Uuid, ops: seq<Op>, ok: bool)
    requires Unused(sp, ops) && inner != sp
    ensures RunIsolated(Beside(tx, sp, saved), inner, ops, ok) ==
            Beside(RunIsolated(tx, inner, ops, ok), sp, saved)
    decreases ops, 1
  {
    if inner !in tx.savepoints {
      var within := MakeSavepoint(tx, inner);
      OpsRunBeside(within, sp, saved, ops);
      OpsKeepSavepoints(within, ops);
      assert MakeSavepoint(Beside(tx, sp, saved), inner) == Beside(within, sp, saved);
      SavepointEndsBeside(RunOps(within, ops), sp, saved, inner);
    }
  }

  lemma SavepointEndsBeside(worked: Tx, sp: Uuid, saved: Savepoint, inner: Uuid)
    requires inner in worked.savepoints && inner != sp
    ensures ReleaseSavepoint(Beside(worked, sp, saved), inner) == Beside(ReleaseSavepoint(worked, inner), sp, saved)
    ensures RollbackTo(Beside(worked, sp, saved), inner) == Beside(RollbackTo(worked, inner), sp, saved)
  {
    assert worked.savepoints[sp := saved] - {inner} == (worked.savepoints - {inner})[sp := saved];
  }

  /** A successful ASYNC_NEW_TX processor leaves exactly the work it would have done
      without the savepoint. */
  lemma SuccessKeepsTheWork(tx: Tx, sp: Uuid, ops: seq<Op>)
    requires sp !in tx.savepoints && Unused(sp, ops)
    ensures RunIsolated(tx, sp, ops, true) == RunOps(tx, ops)
  {
    OpsRunBeside(tx, sp, SavepointOf(tx), ops);
    OpsKeepSavepoints(tx, ops);
    assert tx.savepoints[sp := SavepointOf(tx)] - {sp} == tx.savepoints;
  }

  // --- the pipeline ------------------------------------------------------

  datatype Mode = Sync | AsyncSameTx | AsyncNewTx | CommitBeforeDispatch

  /** What a dispatched processor did and answered. */
  datatype Reply = Reply(ops: seq<Op>, ok: bool, data: Option<Value>)

  /** A segment boundary: whether the flush and commit of the open transaction go
      through, the transaction begun next, whether the processor gets its token, and the
      entity's committed rows when the result is saved. */
  datatype Boundary = Boundary(commits: bool, post: Tx, joined: bool, vs: seq<Row>)

  /** A processor reacts to the transaction it joins, if any, and the entity it is
      given. */
  datatype Processor = Processor(mode: Mode, internalized: bool, sp: Uuid, boundary: Boundary,
                                 react: (Option<Tx>, Entity) -> Reply)

  /** The transaction, the entity under transition, whether the pipeline goes on, and
      the transactions committed on the way, oldest first. */
  datatype Progress = Progress(tx: Tx, entity: Entity, ok: bool, committed: seq<Tx>)

  function WithData(entity: Entity, data: Option<Value>): Entity {
    if data.Some? then entity.(data := data.value) else entity
  }

  /** What the processor of a boundary answers, and the next transaction after it. */
  function BoundaryReply(entity: Entity, p: Processor): Reply {
    p.react(if p.boundary.joined then Some(p.boundary.post) else None, entity)
  }

  function AfterReply(entity: Entity, p: Processor): Tx {
    if p.boundary.joined then RunOps(p.boundary.post, BoundaryReply(entity, p).ops) else p.boundary.post
  }

  /** The result is saved only onto the version the segment before left. */
  predicate ResultAccepted(tx: Tx, anchor: Uuid, entity: Entity, p: Processor) {
    CasAccepts(AfterReply(entity, p), p.boundary.vs, anchor, tx.id)
  }

  /** executeCommitBeforeDispatch: save the entity and commit, dispatch, begin the next
      transaction, and save the result there by compare-and-swap. */
  function CrossBoundary(tx: Tx, anchor: Uuid, entity: Entity, p: Processor): Progress {
    var flushed := SaveIn(tx, anchor, entity);
    if !p.boundary.commits then Progress(flushed, entity, false, [])
    else
      var reply, worked := BoundaryReply(entity, p), AfterReply(entity, p);
      var updated := WithData(entity, reply.data);
      if !reply.ok then Progress(worked, entity, false, [flushed])
      else if !ResultAccepted(tx, anchor, entity, p) then Progress(worked, updated, false, [flushed])
      else Progress(SaveIn(worked, anchor, updated), updated, true, [flushed])
  }

  function Dispatch(tx: Tx, anchor: Uuid, entity: Entity, p: Processor): Progress {
    if p.internalized then Progress(tx, entity, false, [])
    else
      match p.mode
      case AsyncNewTx =>
        if p.sp in tx.savepoints then Progress(tx, entity, true, [])
        else
          var reply := p.react(Some(MakeSavepoint(tx, p.sp)), entity);
          Progress(RunIsolated(tx, p.sp, reply.ops, reply.ok), entity, true, [])
      case CommitBeforeDispatch => CrossBoundary(tx, anchor, entity, p)
      case _ =>
        var reply := p.react(Some(tx), entity);
        var worked := RunOps(tx, reply.ops);
        Progress(worked, if reply.ok then WithData(entity, reply.data) else entity, reply.ok, [])
  }

  function After(committed: seq<Tx>, p: Progress): Progress {
    p.(committed := committed + p.committed)
  }

  lemma AfterAfter(a: seq<Tx>, b: seq<Tx>, p: Progress)
    ensures After(a, After(b, p)) == After(a + b, p) && After([], p) == p
  {
    assert a + (b + p.committed) == a + b + p.committed && [] + p.committed == p.committed;
  }

  function Pipeline(tx: Tx, anchor: Uuid, entity: Entity, ps: seq<Processor>): Progress
    decreases |ps|
  {
    if ps == [] then Progress(tx, entity, true, [])
    else
      var next := Dispatch(tx, anchor, entity, ps[0]);
      if next.ok then After(next.committed, Pipeline(next.tx, anchor, next.entity, ps[1..])) else next
  }

  /** Whether this processor, dispatched here, is an ASYNC_NEW_TX one that fails. */
  predicate FailsAlone(tx: Tx, entity: Entity, p: Processor) {
    && !p.internalized && p.mode == AsyncNewTx && p.sp !in tx.savepoints
    && !p.react(Some(MakeSavepoint(tx, p.sp)), entity).ok
  }

  /** The same pipeline without the ASYNC_NEW_TX processors that fail. */
  function WithoutFailures(tx: Tx, anchor: Uuid, entity: Entity, ps: seq<Processor>): seq<Processor>
    decreases |ps|
  {
    if ps == [] then []
    else
      var next := Dispatch(tx, anchor, entity, ps[0]);
      if FailsAlone(tx, entity, ps[0]) then WithoutFailures(tx, anchor, entity, ps[1..])
      else if next.ok then [ps[0]] + WithoutFailures(next.tx, anchor, next.entity, ps[1..])
      else [ps[0]]
  }

  /** A pipeline ends exactly as it would without its failing ASYNC_NEW_TX
      processors: same committed segments, same open transaction, entity and verdict. */
  lemma {:induction false} FailingAsyncIsAsIfAbsent(tx: Tx, anchor: Uuid, entity: Entity, ps: seq<Processor>)
    ensures Pipeline(tx, anchor, entity, ps) == Pipeline(tx, anchor, entity, WithoutFailures(tx, anchor, entity, ps))
    decreases |ps|
  {
    if ps != [] {
      var p, next := ps[0], Dispatch(tx, anchor, entity, ps[0]);
      if FailsAlone(tx, entity, p) {
        FailureLeavesNoTrace(tx, p.sp, p.react(Some(MakeSavepoint(tx, p.sp)), entity).ops);
        FailingAsyncIsAsIfAbsent(tx, anchor, entity, ps[1..]);
      } else if next.ok {
        FailingAsyncIsAsIfAbsent(next.tx, anchor, next.entity, ps[1..]);
        var kept := WithoutFailures(next.tx, anchor, next.entity, ps[1..]);
        assert ([p] + kept)[1..] == kept;
      } else {
        assert [p][1..] == [];
      }
    }
  }

  /** A processor stops the pipeline when it is internalized, when it works inline and
      fails, or when its boundary does not commit, fails, or finds the entity changed. */
  predicate StopsAt(tx: Tx, anchor: Uuid, entity: Entity, p: Processor) {
    p.internalized ||
    match p.mode
    case AsyncNewTx => false
    case CommitBeforeDispatch =>
      !p.boundary.commits || !BoundaryReply(entity, p).ok || !ResultAccepted(tx, anchor, entity, p)
    case _ => !p.react(Some(tx), entity).ok
  }

  /** The pipeline gets as far as `ps[i]` and stops there. */
  predicate StopsBefore(tx: Tx, anchor: Uuid, entity: Entity, ps: seq<Processor>, i: nat)
    requires i < |ps|
  {
    var before := Pipeline(tx, anchor, entity, ps[..i]);
    before.ok && StopsAt(before.tx, anchor, before.entity, ps[i])
  }

  /** The verdict: a pipeline stops exactly when some processor it reaches stops it. */
  lemma {:induction false} PipelineStopsExactlyWhen(tx: Tx, anchor: Uuid, entity: Entity, ps: seq<Processor>)
    ensures !Pipeline(tx, anchor, entity, ps).ok <==>
            exists i :: 0 <= i < |ps| && StopsBefore(tx, anchor, entity, ps, i)
    decreases |ps|
  {
    if ps != [] {
      var next := Dispatch(tx, anchor, entity, ps[0]);
      assert ps[..0] == [];
      if next.ok {
        PipelineStopsExactlyWhen(next.tx, anchor, next.entity, ps[1..]);
        forall i | 0 < i < |ps|
          ensures StopsBefore(tx, anchor, entity, ps, i) <==>
                  StopsBefore(next.tx, anchor, next.entity, ps[1..], i - 1)
        {
          assert ps[..i][1..] == ps[1..][..i - 1];
        }
        if j :| 0 <= j < |ps[1..]| && StopsBefore(next.tx, anchor, next.entity, ps[1..], j) {
          assert StopsBefore(tx, anchor, entity, ps, j + 1);
        }
      } else {
        assert StopsBefore(tx, anchor, entity, ps, 0);
      }
    }
  }

  lemma {:induction false} PipelineExtends(tx: Tx, anchor: Uuid, entity: Entity, ps: seq<Processor>, p: Processor)
    ensures
      var before := Pipeline(tx, anchor, entity, ps);
      Pipeline(tx, anchor, entity, ps + [p]) ==
      if before.ok then After(before.committed, Dispatch(before.tx, anchor, before.entity, p)) else before
    decreases |ps|
  {
    if ps == [] {
      assert ps + [p] == [p] && [p][1..] == [];
    } else {
      var next := Dispatch(tx, anchor, entity, ps[0]);
      assert (ps + [p])[1..] == ps[1..] + [p] && (ps + [p])[0] == ps[0];
      PipelineExtends(next.tx, anchor, next.entity, ps[1..], p);
      var rest := Pipeline(next.tx, anchor, next.entity, ps[1..]);
      AfterAfter(next.committed, rest.committed, Dispatch(rest.tx, anchor, rest.entity, p));
    }
  }

  /** The data an inline processor returns becomes the entity's; what an ASYNC_NEW_TX
      processor returns is dropped, and its successful work stays. */
  lemma ResultsAreTakenInline(tx: Tx, anchor: Uuid, entity: Entity, ps: seq<Processor>, p: Processor)
    requires Pipeline(tx, anchor, entity, ps).ok && !p.internalized && p.mode != CommitBeforeDispatch
    ensures
      var before, after := Pipeline(tx, anchor, entity, ps), Pipeline(tx, anchor, entity, ps + [p]);
      && after.committed == before.committed
      && if p.mode == AsyncNewTx then
        && after.ok && after.entity == before.entity
        && (p.sp !in before.tx.savepoints ==>
              var reply := p.react(Some(MakeSavepoint(before.tx, p.sp)), before.entity);
              Unused(p.sp, reply.ops) ==>
                after.tx == if reply.ok then RunOps(before.tx, reply.ops) else before.tx)
      else
        var reply := p.react(Some(before.tx), before.entity);
        && (after.ok <==> reply.ok)
        && after.tx == RunOps(before.tx, reply.ops)
        && (reply.ok && reply.data.Some? ==> after.entity == before.entity.(data := reply.data.value))
        && (reply.ok && reply.data.None? ==> after.entity == before.entity)
  {
    PipelineExtends(tx, anchor, entity, ps, p);
    var before := Pipeline(tx, anchor, entity, ps);
    if p.mode == AsyncNewTx && p.sp !in before.tx.savepoints {
      var reply := p.react(Some(MakeSavepoint(before.tx, p.sp)), before.entity);
      if !reply.ok {
        FailureLeavesNoTrace(before.tx, p.sp, reply.ops);
      } else if Unused(p.sp, reply.ops) {
        SuccessKeepsTheWork(before.tx, p.sp, reply.ops);
      }
    }
  }

  // --- segments ----------------------------------------------------------

  lemma {:induction false} OpsKeepIdentity(tx: Tx, ops: seq<Op>)
    ensures RunOps(tx, ops).id == tx.id
    decreases ops, 0
  {
    if ops != [] {
      OpKeepsIdentity(tx, ops[0]);
      OpsKeepIdentity(RunOp(tx, ops[0]), ops[1..]);
    }
  }

  lemma {:induction false} OpKeepsIdentity(tx: Tx, op: Op)
    ensures RunOp(tx, op).id == tx.id
    decreases op, 1
  {
    if op.Isolated? && op.sp !in tx.savepoints {
      OpsKeepIdentity(MakeSavepoint(tx, op.sp), op.ops);
    }
  }

  /** The transactions the pipeline works in, one after the other. */
  function Segments(committed: seq<Tx>, last: Uuid): seq<Uuid> {
    if committed == [] then [last] else [committed[0].id] + Segments(committed[1..], last)
  }

  predicate EndsWithSave(c: Tx, anchor: Uuid) {
    anchor in c.buffer && anchor !in c.deletes && c.buffer[anchor].txId == c.id
  }

  /** The transactions begun at the boundaries. */
  function Begun(ps: seq<Processor>): seq<Uuid> {
    if ps == [] then [] else BegunAt(ps[0]) + Begun(ps[1..])
  }

  function BegunAt(p: Processor): seq<Uuid> {
    if p.mode == CommitBeforeDispatch then [p.boundary.post.id] else []
  }

  /** One dispatch that goes on, and the rest of the pipeline, chain their segments. */
  lemma ChainsOn(id: Uuid, next: Progress, rest: Progress, head: seq<Uuid>, tail: seq<Uuid>)
    requires if next.committed == [] then next.tx.id == id && head == []
             else |next.committed| == 1 && next.committed[0].id == id && head == [next.tx.id]
    requires Segments(rest.committed, rest.tx.id) <= [next.tx.id] + tail
    requires rest.ok ==> Segments(rest.committed, rest.tx.id) == [next.tx.id] + tail
    ensures Segments(next.committed + rest.committed, rest.tx.id) <= [id] + (head + tail)
    ensures rest.ok ==> Segments(next.committed + rest.committed, rest.tx.id) == [id] + (head + tail)
  {
    if next.committed == [] {
      assert next.committed + rest.committed == rest.committed && head + tail == tail;
    } else {
      assert (next.committed + rest.committed)[1..] == rest.committed;
    }
  }

  /** The segments are the opening transaction and the ones begun at the boundaries, in
      order; so a pipeline without boundaries stays in the transaction it was given. */
  lemma {:induction false} SegmentsChain(tx: Tx, anchor: Uuid, entity: Entity, ps: seq<Processor>)
    ensures
      var p := Pipeline(tx, anchor, entity, ps);
      && Segments(p.committed, p.tx.id) <= [tx.id] + Begun(ps)
      && (p.ok ==> Segments(p.committed, p.tx.id) == [tx.id] + Begun(ps))
    decreases |ps|
  {
    if ps != [] {
      var next := Dispatch(tx, anchor, entity, ps[0]);
      DispatchChains(tx, anchor, entity, ps[0]);
      if next.ok {
        SegmentsChain(next.tx, anchor, next.entity, ps[1..]);
        ChainsOn(tx.id, next, Pipeline(next.tx, anchor, next.entity, ps[1..]), BegunAt(ps[0]), Begun(ps[1..]));
      }
    }
  }

  /** Every committed segment ends by saving the entity. */
  lemma {:induction false} SegmentsSaveTheEntity(tx: Tx, anchor: Uuid, entity: Entity, ps: seq<Processor>)
    ensures forall c :: c in Pipeline(tx, anchor, entity, ps).committed ==> EndsWithSave(c, anchor)
    decreases |ps|
  {
    if ps != [] {
      var next := Dispatch(tx, anchor, entity, ps[0]);
      DispatchChains(tx, anchor, entity, ps[0]);
      if next.ok {
        SegmentsSaveTheEntity(next.tx, anchor, next.entity, ps[1..]);
      }
    }
  }

  lemma DispatchChains(tx: Tx, anchor: Uuid, entity: Entity, p: Processor)
    ensures
      var next := Dispatch(tx, anchor, entity, p);
      if next.committed == [] then
        next.tx.id == tx.id && (next.ok ==> p.mode != CommitBeforeDispatch)
      else
        && next.committed == [SaveIn(tx, anchor, entity)]
        && p.mode == CommitBeforeDispatch && next.tx.id == p.boundary.post.id
  {
    if !p.internalized {
      match p.mode
      case AsyncNewTx =>
        OpKeepsIdentity(tx, Isolated(p.sp, p.react(Some(MakeSavepoint(tx, p.sp)), entity).ops,
                                             p.react(Some(MakeSavepoint(tx, p.sp)), entity).ok));
      case CommitBeforeDispatch =>
        OpsKeepIdentity(p.boundary.post, BoundaryReply(entity, p).ops);
      case _ =>
        OpsKeepIdentity(tx, p.react(Some(tx), entity).ops);
    }
  }

  /** executeProcessors: the loop over the transition's processors. */
  method ExecuteProcessors(tx: Tx, anchor: Uuid, entity: Entity, ps: seq<Processor>) returns (p: Progress)
    ensures p == Pipeline(tx, anchor, entity, ps)
  {
    p := Progress(tx, entity, true, []);
    for i := 0 to |ps|
      invariant p.ok
      invariant Pipeline(tx, anchor, entity, ps) == After(p.committed, Pipeline(p.tx, anchor, p.entity, ps[i..]))
    {
      assert ps[i..][1..] == ps[i + 1..];
      var next := Dispatch(p.tx, anchor, p.entity, ps[i]);
      AfterAfter(p.committed, next.committed, Pipeline(next.tx, anchor, next.entity, ps[i + 1..]));
      p := After(p.committed, next);
      if !p.ok {
        return;
      }
    }
  }

  /** How the request ends: the entity is saved and the open transaction commits if
      the pipeline went through, and it rolls back if the pipeline stopped. */
  function Settle(w: World, anchor: Uuid, p: Progress, now: int): World
    requires p.tx.id in w.s.active && w.s.active <= w.s.txs.Keys
    requires w.s.holder.Free?
  {
    var u := p.tx.id;
    if p.ok then w.(s := Manager.AfterCommit(w.s.(txs := w.s.txs[u := SaveIn(p.tx, anchor, p.entity)]), u, now))
    else w.(s := Undone(w.s.(txs := w.s.txs[u := p.tx]), u))
  }

  /** A transition does what its non-failing part does. One that stops publishes nothing
      of the transaction it stopped in; one that goes through publishes all of it at once
      exactly when its commit meets no conflict, and else nothing. That is the end of it:
      no later run publishes that transaction. */
  lemma TransitionIsAllOrNothing(
      w: World, tx: Tx, anchor: Uuid, entity: Entity, ps: seq<Processor>, now: int, es: seq<Event>, w': World)
    requires
      var u := Pipeline(tx, anchor, entity, ps).tx.id;
      u in w.s.active && u !in w.s.marked && w.s.active <= w.s.txs.Keys && w.s.holder.Free?
    requires Runs(Settle(w, anchor, Pipeline(tx, anchor, entity, ps), now), es, w')
    ensures
      var p := Pipeline(tx, anchor, entity, ps);
      var rows := Settle(w, anchor, p, now).s.rows;
      && p == Pipeline(tx, anchor, entity, WithoutFailures(tx, anchor, entity, ps))
      && (var last := SaveIn(p.tx, anchor, p.entity);
          rows == if p.ok && !Conflicts(w.s.log, Baseline(w.s, p.tx.id), last)
                  then Flush(w.s.rows, last, NextStamp(w.s.floor, now)) else w.s.rows)
      && forall i :: 0 <= i < |es| ==> es[i] != CommitRecord(p.tx.id)
  {
    FailingAsyncIsAsIfAbsent(tx, anchor, entity, ps);
    var p := Pipeline(tx, anchor, entity, ps);
    SettledIsFinished(w, anchor, p, now);
    FinishedForGood(Settle(w, anchor, p, now), es, w', p.tx.id);
  }

  lemma SettledIsFinished(w: World, anchor: Uuid, p: Progress, now: int)
    requires p.tx.id in w.s.active && p.tx.id !in w.s.marked && w.s.active <= w.s.txs.Keys && w.s.holder.Free?
    ensures
      var s, last := Settle(w, anchor, p, now).s, SaveIn(p.tx, anchor, p.entity);
      && Finished(s, p.tx.id)
      && s.rows == if p.ok && !Conflicts(w.s.log, Baseline(w.s, p.tx.id), last)
                   then Flush(w.s.rows, last, NextStamp(w.s.floor, now)) else w.s.rows
  {
  }
}
