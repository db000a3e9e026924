/** Shutdown of the server process: the reaper goroutine, any number of concurrent
    Shutdown and Close callers, the two run-once guards, the gRPC stop budget
    (app/app.go) and the server group that drives them (cmd/cyoda/run.go). Every
    event is one atomic step of one goroutine. */
module Shutdown {

  /** What Shutdown and Close are made of, for the resources at stake. */
  datatype Op = StopReaper | CloseStore | StopGrpc

  const SHUTDOWN: seq<Op> := [StopReaper]
  const CLOSE: seq<Op> := [StopReaper, CloseStore, StopGrpc]
  const WATCH: seq<Op> := [StopGrpc]
  const SHUTDOWN_THEN_CLOSE: seq<Op> := [StopReaper, StopReaper, CloseStore, StopGrpc]

  datatype Pc = Between | InStopOnce | AwaitReaper | InStoreClose | InDrain

  datatype Caller = Caller(pc: Pc, todo: seq<Op>, pastReaper: bool)

  /** A run-once guard: callers that find it held wait until it is done. */
  datatype Once = Fresh | Held(holder: nat) | Done

  datatype Reaper = Sweeping | Idle | Exited

  /** `timer` is of the drain under way, started afresh when one is entered; `waited`
      adds up the seconds of all drains, and no step is limited by it. */
  datatype State = State(
    callers: map<nat, Caller>,
    stopOnce: Once, closes: nat, reaper: Reaper, healthy: bool, storeCloses: nat,
    grpcOnce: Once, graceful: nat, forced: nat, timer: nat, waited: nat,
    cancelled: bool, draining: set<nat>, returned: set<nat>)

  /** The gRPC graceful-stop budget, in seconds. */
  const BUDGET: nat := 10

  // The six goroutines of the group.
  const GRPC_SERVE: nat := 0
  const GRPC_WATCH: nat := 1
  const HTTP_SERVE: nat := 2
  const HTTP_DRAIN: nat := 3
  const ADMIN_SERVE: nat := 4
  const ADMIN_DRAIN: nat := 5
  const GROUP: set<nat> := {0, 1, 2, 3, 4, 5}

  // Callers with a fixed role: the group's gRPC watcher, and runServers itself.
  const WATCHER: nat := 0
  const MAIN: nat := 1

  /** The reaper goroutine begins with its startup sweep. */
  const START := State(map[], Fresh, 0, Sweeping, true, 0, Fresh, 0, 0, 0, 0, false, {}, {})

  datatype Event =
    | Arrive(c: nat, program: seq<Op>)
    | EnterStop(c: nat)
    | CloseStop(c: nat)
    | PassStop(c: nat)
    | BeginStoreClose(c: nat)
    | EndStoreClose(c: nat)
    | EnterGrpc(c: nat)
    | DrainDone(c: nat)
    | DrainForced(c: nat)
    | Second
    | SweepStart
    | SweepEnd(panicked: bool)
    | ReaperExit
    | Panic
    | Signal
    | Drain(g: nat)
    | Return(g: nat, failed: bool)

  predicate At(s: State, c: nat, pc: Pc) {
    c in s.callers && s.callers[c].pc == pc
  }

  predicate About(s: State, c: nat, op: Op) {
    At(s, c, Between) && s.callers[c].todo != [] && s.callers[c].todo[0] == op
  }

  predicate Finished(s: State, c: nat) {
    At(s, c, Between) && s.callers[c].todo == []
  }

  predicate Enabled(s: State, e: Event) {
    match e
    case Arrive(c, program) =>
      && c !in s.callers
      && (c == WATCHER ==> s.cancelled && program == WATCH)
      && (c == MAIN ==> s.returned == GROUP && program == SHUTDOWN_THEN_CLOSE)
      && (c != WATCHER && c != MAIN ==> program == SHUTDOWN || program == CLOSE)
    case EnterStop(c) => About(s, c, StopReaper) && !s.stopOnce.Held?
    case CloseStop(c) => At(s, c, InStopOnce)
    case PassStop(c) => At(s, c, AwaitReaper) && s.reaper == Exited
    case BeginStoreClose(c) => About(s, c, CloseStore)
    case EndStoreClose(c) => At(s, c, InStoreClose)
    case EnterGrpc(c) => About(s, c, StopGrpc) && !s.grpcOnce.Held?
    case DrainDone(c) => At(s, c, InDrain)
    case DrainForced(c) => At(s, c, InDrain) && s.timer >= BUDGET
    case Second => s.grpcOnce.Held? && s.timer < BUDGET
    case SweepStart => s.reaper == Idle
    case SweepEnd(_) => s.reaper == Sweeping
    case ReaperExit => s.reaper == Idle && s.closes > 0
    case Panic => true
    case Signal => true
    case Drain(g) => g in {HTTP_DRAIN, ADMIN_DRAIN} && s.cancelled && g !in s.returned
    case Return(g, failed) =>
      && g in GROUP && g !in s.returned
      && (failed ==> g in {GRPC_SERVE, HTTP_SERVE, ADMIN_SERVE})
      && (!failed ==>
            match g
            case 0 => s.graceful > 0
            case 1 => Finished(s, WATCHER)
            case 2 => HTTP_DRAIN in s.draining
            case 4 => ADMIN_DRAIN in s.draining
            case _ => g in s.draining)
  }

  function Put(s: State, c: nat, caller: Caller): State {
    s.(callers := s.callers[c := caller])
  }

  function Rest(todo: seq<Op>): seq<Op> {
    if todo == [] then [] else todo[1..]
  }

  function Proceed(s: State, c: nat): State
    requires c in s.callers
  {
    Put(s, c, s.callers[c].(pc := Between, todo := Rest(s.callers[c].todo)))
  }

  function Next(s: State, e: Event): State
    requires Enabled(s, e)
  {
    match e
    case Arrive(c, program) => Put(s, c, Caller(Between, program, false))
    case EnterStop(c) =>
      if s.stopOnce == Done then Put(s, c, s.callers[c].(pc := AwaitReaper))
      else Put(s.(stopOnce := Held(c)), c, s.callers[c].(pc := InStopOnce))
    case CloseStop(c) => Put(s.(stopOnce := Done, closes := s.closes + 1), c, s.callers[c].(pc := AwaitReaper))
    case PassStop(c) => Put(s, c, s.callers[c].(pc := Between, todo := Rest(s.callers[c].todo), pastReaper := true))
    case BeginStoreClose(c) => Put(s.(storeCloses := s.storeCloses + 1), c, s.callers[c].(pc := InStoreClose))
    case EndStoreClose(c) => Proceed(s, c)
    case EnterGrpc(c) =>
      if s.grpcOnce == Done then Proceed(s, c)
      else Put(s.(grpcOnce := Held(c), graceful := s.graceful + 1, timer := 0), c, s.callers[c].(pc := InDrain))
    case DrainDone(c) => Proceed(s.(grpcOnce := Done), c)
    case DrainForced(c) => Proceed(s.(grpcOnce := Done, forced := s.forced + 1), c)
    case Second => s.(timer := s.timer + 1, waited := s.waited + 1)
    case SweepStart => s.(reaper := Sweeping)
    case SweepEnd(panicked) => s.(reaper := Idle, healthy := s.healthy && !panicked)
    case ReaperExit => s.(reaper := Exited)
    case Panic => s.(healthy := false)
    case Signal => s.(cancelled := true)
    case Drain(g) => s.(draining := s.draining + {g})
    case Return(g, failed) => s.(returned := s.returned + {g}, cancelled := s.cancelled || failed)
  }

  ghost predicate Leads(s: State, es: seq<Event>, s': State)
    decreases |es|
  {
    if es == [] then s == s'
    else Enabled(s, es[0]) && Leads(Next(s, es[0]), es[1..], s')
  }

  // --- the invariant -----------------------------------------------------

  /** The rest of a program never closes the store before the reaper is gone. */
  predicate Guarded(todo: seq<Op>, pastReaper: bool) {
    forall i :: 0 <= i < |todo| && todo[i] == CloseStore ==> pastReaper || StopReaper in todo[..i]
  }

  predicate CallerOk(s: State, c: nat)
    requires c in s.callers
  {
    var k := s.callers[c];
    && Guarded(k.todo, k.pastReaper)
    && (k.pastReaper ==> s.reaper == Exited)
    && (k.pc == InStopOnce <==> s.stopOnce == Held(c))
    && (k.pc == AwaitReaper ==> s.stopOnce == Done)
    && (k.pc in {InStopOnce, AwaitReaper} ==> k.todo != [] && k.todo[0] == StopReaper)
    && (k.pc == InStoreClose ==> k.todo != [] && k.todo[0] == CloseStore)
    && (k.pc == InDrain <==> s.grpcOnce == Held(c))
    && (k.pc == InDrain ==> k.todo != [] && k.todo[0] == StopGrpc)
  }

  predicate ReaperOk(s: State) {
    && s.closes == (if s.stopOnce == Done then 1 else 0)
    && (s.reaper == Exited ==> s.closes > 0)
    && (s.storeCloses > 0 ==> s.reaper == Exited)
    && (s.stopOnce.Held? ==> At(s, s.stopOnce.holder, InStopOnce))
  }

  predicate GrpcOk(s: State) {
    && s.graceful == (if s.grpcOnce == Fresh then 0 else 1)
    && (s.grpcOnce == Fresh ==> s.waited == 0)
    && s.waited == s.timer <= BUDGET && s.forced <= 1
    && (s.forced == 1 ==> s.timer == BUDGET && s.grpcOnce == Done)
    && (s.grpcOnce.Held? ==> At(s, s.grpcOnce.holder, InDrain))
  }

  predicate WatcherOk(s: State) {
    WATCHER in s.callers ==>
      (s.callers[WATCHER].todo == [] && s.grpcOnce == Done) || s.callers[WATCHER].todo == WATCH
  }

  /** The watcher has nothing to do but stop gRPC, and runServers comes last. */
  predicate GroupOk(s: State) {
    && WatcherOk(s)
    && (GRPC_WATCH in s.returned ==> Finished(s, WATCHER))
    && (MAIN in s.callers ==> s.returned == GROUP)
  }

  predicate Inv(s: State) {
    && (forall c :: c in s.callers ==> CallerOk(s, c))
    && ReaperOk(s) && GrpcOk(s) && GroupOk(s)
  }

  lemma GuardedTail(todo: seq<Op>, past: bool)
    requires todo != [] && Guarded(todo, past)
    ensures todo[0] != StopReaper ==> Guarded(todo[1..], past)
    ensures Guarded(todo[1..], true)
    ensures todo[0] == CloseStore ==> past
  {
    forall i | 0 <= i < |todo[1..]| && todo[1..][i] == CloseStore && todo[0] != StopReaper
      ensures past || StopReaper in todo[1..][..i]
    {
      assert todo[i + 1] == CloseStore;
      assert todo[..i + 1] == [todo[0]] + todo[1..][..i];
    }
    if todo[0] == CloseStore {
      assert todo[..0] == [];
    }
  }

  predicate StepOf(e: Event, c: nat) {
    match e
    case Arrive(d, _) => d == c
    case EnterStop(d) => d == c
    case CloseStop(d) => d == c
    case PassStop(d) => d == c
    case BeginStoreClose(d) => d == c
    case EndStoreClose(d) => d == c
    case EnterGrpc(d) => d == c
    case DrainDone(d) => d == c
    case DrainForced(d) => d == c
    case _ => false
  }

  lemma ArrivalIsOk(s: State, c: nat, program: seq<Op>)
    requires Inv(s) && Enabled(s, Arrive(c, program))
    ensures CallerOk(Next(s, Arrive(c, program)), c)
  {
    assert CLOSE[..1] == [StopReaper];
    assert SHUTDOWN_THEN_CLOSE[..2] == [StopReaper, StopReaper];
  }

  lemma OwnStepKeepsCaller(s: State, e: Event, c: nat)
    requires Inv(s) && Enabled(s, e) && c in s.callers && StepOf(e, c)
    ensures CallerOk(Next(s, e), c)
  {
    assert CallerOk(s, c);
    if s.callers[c].todo != [] {
      GuardedTail(s.callers[c].todo, s.callers[c].pastReaper);
    }
  }

  /** All that CallerOk depends on is as it was, or has moved on. */
  predicate Undisturbed(s: State, s': State, c: nat) {
    && c in s.callers && c in s'.callers && s'.callers[c] == s.callers[c]
    && (s.reaper == Exited ==> s'.reaper == Exited)
    && (s.stopOnce == Done ==> s'.stopOnce == Done) && (s'.stopOnce == Held(c) <==> s.stopOnce == Held(c))
    && (s'.grpcOnce == Held(c) <==> s.grpcOnce == Held(c))
  }

  predicate StopStep(e: Event) { e.EnterStop? || e.CloseStop? || e.PassStop? }

  predicate GrpcStep(e: Event) { e.EnterGrpc? || e.DrainDone? || e.DrainForced? }

  lemma StopStepLeaves(s: State, e: Event, c: nat)
    requires Inv(s) && Enabled(s, e) && c in s.callers && StopStep(e) && e.c != c
    ensures Undisturbed(s, Next(s, e), c)
  {
    assert CallerOk(s, c) && CallerOk(s, e.c);
  }

  lemma GrpcStepLeaves(s: State, e: Event, c: nat)
    requires Inv(s) && Enabled(s, e) && c in s.callers && GrpcStep(e) && e.c != c
    ensures Undisturbed(s, Next(s, e), c)
  {
    assert CallerOk(s, c) && CallerOk(s, e.c);
  }

  lemma OtherStepLeaves(s: State, e: Event, c: nat)
    requires Enabled(s, e) && c in s.callers && !StopStep(e) && !GrpcStep(e) && !StepOf(e, c)
    ensures Undisturbed(s, Next(s, e), c)
  {
  }

  lemma OtherStepKeepsCaller(s: State, e: Event, c: nat)
    requires Inv(s) && Enabled(s, e) && c in s.callers && !StepOf(e, c)
    ensures c in Next(s, e).callers && CallerOk(Next(s, e), c) && Next(s, e).callers[c] == s.callers[c]
  {
    if StopStep(e) {
      StopStepLeaves(s, e, c);
    } else if GrpcStep(e) {
      GrpcStepLeaves(s, e, c);
    } else {
      OtherStepLeaves(s, e, c);
    }
    UndisturbedIsOk(s, Next(s, e), c);
  }

  lemma UndisturbedIsOk(s: State, s': State, c: nat)
    requires c in s.callers && CallerOk(s, c) && Undisturbed(s, s', c)
    ensures CallerOk(s', c)
  {
  }

  lemma StepKeepsCaller(s: State, e: Event, c: nat)
    requires Inv(s) && Enabled(s, e) && c in Next(s, e).callers
    ensures CallerOk(Next(s, e), c)
  {
    if c !in s.callers {
      ArrivalIsOk(s, c, e.program);
    } else if StepOf(e, c) {
      OwnStepKeepsCaller(s, e, c);
    } else {
      OtherStepKeepsCaller(s, e, c);
    }
  }

  lemma StopStepKeepsReaper(s: State, e: Event)
    requires Inv(s) && Enabled(s, e) && StopStep(e)
    ensures ReaperOk(Next(s, e)) && GrpcOk(Next(s, e))
  {
    assert CallerOk(s, e.c);
  }

  lemma GrpcStepKeepsReaper(s: State, e: Event)
    requires Inv(s) && Enabled(s, e) && GrpcStep(e)
    ensures ReaperOk(Next(s, e)) && GrpcOk(Next(s, e))
  {
    assert CallerOk(s, e.c);
  }

  lemma StoreStepKeepsReaper(s: State, e: Event)
    requires Inv(s) && Enabled(s, e) && (e.Arrive? || e.BeginStoreClose? || e.EndStoreClose?)
    ensures ReaperOk(Next(s, e)) && GrpcOk(Next(s, e))
  {
    if !e.Arrive? {
      assert CallerOk(s, e.c);
    }
    if e.BeginStoreClose? {
      GuardedTail(s.callers[e.c].todo, s.callers[e.c].pastReaper);
    }
  }

  lemma StepKeepsReaper(s: State, e: Event)
    requires Inv(s) && Enabled(s, e)
    ensures ReaperOk(Next(s, e)) && GrpcOk(Next(s, e))
  {
    if StopStep(e) {
      StopStepKeepsReaper(s, e);
    } else if GrpcStep(e) {
      GrpcStepKeepsReaper(s, e);
    } else if e.Arrive? || e.BeginStoreClose? || e.EndStoreClose? {
      StoreStepKeepsReaper(s, e);
    }
  }

  lemma StepKeepsWatcher(s: State, e: Event)
    requires Inv(s) && Enabled(s, e)
    ensures WatcherOk(Next(s, e))
    ensures Finished(s, WATCHER) ==> Finished(Next(s, e), WATCHER)
  {
    if WATCHER in s.callers {
      if StepOf(e, WATCHER) {
        WatcherStops(s, e);
      } else {
        OtherStepKeepsCaller(s, e, WATCHER);
        GrpcStaysDone(s, e);
      }
    }
  }

  lemma WatcherStops(s: State, e: Event)
    requires Inv(s) && Enabled(s, e) && WATCHER in s.callers && StepOf(e, WATCHER)
    ensures WatcherOk(Next(s, e)) && !Finished(s, WATCHER)
  {
    assert CallerOk(s, WATCHER);
  }

  lemma GrpcStaysDone(s: State, e: Event)
    requires Inv(s) && Enabled(s, e)
    ensures s.grpcOnce == Done ==> Next(s, e).grpcOnce == Done
  {
  }

  lemma StepKeepsGroup(s: State, e: Event)
    requires Inv(s) && Enabled(s, e)
    ensures GroupOk(Next(s, e))
  {
    StepKeepsWatcher(s, e);
  }

  lemma {:induction false} RunKeepsInv(s: State, es: seq<Event>, s': State)
    requires Inv(s) && Leads(s, es, s')
    ensures Inv(s')
    decreases |es|
  {
    if es != [] {
      var mid := Next(s, es[0]);
      forall c | c in mid.callers ensures CallerOk(mid, c) {
        StepKeepsCaller(s, es[0], c);
      }
      StepKeepsReaper(s, es[0]);
      StepKeepsGroup(s, es[0]);
      RunKeepsInv(mid, es[1..], s');
    }
  }

  // --- the reaper and the store ------------------------------------------

  /** For any number of Shutdown and Close callers in any interleaving: the stop
      channel is closed at most once; a caller is past the stop only once the
      reaper has exited; and once any store close has begun the reaper has exited. */
  lemma ReaperStopsFirst(es: seq<Event>, s: State)
    requires Leads(START, es, s)
    ensures s.closes <= 1
    ensures forall c :: c in s.callers && (s.callers[c].pastReaper || s.callers[c].pc == InStoreClose) ==>
              s.reaper == Exited
    ensures s.storeCloses > 0 ==> s.reaper == Exited
  {
    RunKeepsInv(START, es, s);
    forall c | c in s.callers && (s.callers[c].pastReaper || s.callers[c].pc == InStoreClose)
      ensures s.reaper == Exited
    {
      assert CallerOk(s, c);
      if s.callers[c].pc == InStoreClose {
        GuardedTail(s.callers[c].todo, s.callers[c].pastReaper);
      }
    }
  }

  /** An exited reaper never sweeps again, and a latched health flag stays so. */
  lemma {:induction false} ExitAndLatchAreFinal(s: State, es: seq<Event>, s': State)
    requires Leads(s, es, s')
    ensures s.reaper == Exited ==> s'.reaper == Exited && !Enabled(s', SweepStart)
    ensures !s.healthy ==> !s'.healthy
    decreases |es|
  {
    if es != [] {
      ExitAndLatchAreFinal(Next(s, es[0]), es[1..], s');
    }
  }

  /** No sweep runs or starts once a store close has begun, in any continuation. */
  lemma NoSweepAfterStoreClose(es: seq<Event>, s: State, es': seq<Event>, s': State)
    requires Leads(START, es, s) && s.storeCloses > 0 && Leads(s, es', s')
    ensures s'.reaper == Exited && !Enabled(s', SweepStart)
  {
    ReaperStopsFirst(es, s);
    ExitAndLatchAreFinal(s, es', s');
  }

  /** The step an unfinished caller is waiting for, its own or somebody else's. */
  function Awaited(s: State, c: nat): Event
    requires c in s.callers
  {
    var k := s.callers[c];
    match k.pc
    case InStopOnce => CloseStop(c)
    case InStoreClose => EndStoreClose(c)
    case InDrain => DrainDone(c)
    case AwaitReaper =>
      if s.reaper == Exited then PassStop(c) else if s.reaper == Sweeping then SweepEnd(false) else ReaperExit
    case Between =>
      if k.todo == [] then Signal
      else
        match k.todo[0]
        case StopReaper => if s.stopOnce.Held? then CloseStop(s.stopOnce.holder) else EnterStop(c)
        case CloseStore => BeginStoreClose(c)
        case StopGrpc => if s.grpcOnce.Held? then DrainDone(s.grpcOnce.holder) else EnterGrpc(c)
  }

  /** No caller is ever stuck: what it waits for can happen. */
  lemma NobodyIsStuck(es: seq<Event>, s: State, c: nat)
    requires Leads(START, es, s) && c in s.callers && !Finished(s, c)
    ensures Enabled(s, Awaited(s, c))
  {
    RunKeepsInv(START, es, s);
    assert CallerOk(s, c);
  }

  // --- the server group --------------------------------------------------

  /** In every run: graceful stop is entered at most once, a forced stop only after
      that one call's whole budget, and nobody waits on gRPC longer than one budget
      in all. Once runServers goes on past the group, all six goroutines have
      returned and its own gRPC stop has nothing left to wait for. */
  lemma GroupStopsInOrder(es: seq<Event>, s: State)
    requires Leads(START, es, s)
    ensures s.graceful <= 1 && s.forced <= 1 && s.waited <= BUDGET
    ensures s.forced == 1 ==> s.waited == BUDGET
    ensures MAIN in s.callers ==> s.returned == GROUP && s.grpcOnce == Done && !Enabled(s, Second)
  {
    RunKeepsInv(START, es, s);
  }

  predicate ServerRun(es: seq<Event>) {
    forall e :: e in es && e.Arrive? ==> e.c == WATCHER || e.c == MAIN
  }

  /** How often the store close has begun once runServers stands here. */
  function ClosesAt(k: Caller): nat {
    if |k.todo| > 2 || (|k.todo| == 2 && k.pc != InStoreClose) then 0 else 1
  }

  predicate MainOk(k: Caller) {
    && k.todo in {SHUTDOWN_THEN_CLOSE, CLOSE, [CloseStore, StopGrpc], [StopGrpc], []}
    && (k.pastReaper <==> |k.todo| < 4)
  }

  /** How often runServers has begun the store close, read off its program. */
  predicate MainCloses(s: State) {
    && (forall c :: c in s.callers ==> c == WATCHER || c == MAIN)
    && (WATCHER in s.callers ==> s.callers[WATCHER].todo == [] || s.callers[WATCHER].todo == WATCH)
    && if MAIN in s.callers then MainOk(s.callers[MAIN]) && s.storeCloses == ClosesAt(s.callers[MAIN])
       else s.storeCloses == 0
  }

  lemma MainStepKeepsCloses(s: State, e: Event)
    requires Inv(s) && Enabled(s, e) && MainCloses(s) && MAIN in s.callers && StepOf(e, MAIN)
    ensures
      var s' := Next(s, e);
      MAIN in s'.callers && MainOk(s'.callers[MAIN]) && s'.storeCloses == ClosesAt(s'.callers[MAIN])
  {
    assert CallerOk(s, MAIN);
    assert SHUTDOWN_THEN_CLOSE[1..] == CLOSE && CLOSE[1..] == [CloseStore, StopGrpc];
    assert [CloseStore, StopGrpc][1..] == [StopGrpc] && [StopGrpc][1..] == [];
  }

  /** Nobody else begins a store close. */
  lemma OthersLeaveStore(s: State, e: Event)
    requires Inv(s) && Enabled(s, e) && MainCloses(s) && !StepOf(e, MAIN)
    ensures Next(s, e).storeCloses == s.storeCloses && (MAIN in Next(s, e).callers <==> MAIN in s.callers)
  {
    assert !e.BeginStoreClose?;
  }

  lemma StepKeepsMainCloses(s: State, e: Event)
    requires Inv(s) && Enabled(s, e) && MainCloses(s)
    requires e.Arrive? ==> e.c == WATCHER || e.c == MAIN
    ensures MainCloses(Next(s, e))
  {
    StepKeepsWatcher(s, e);
    if !StepOf(e, MAIN) {
      OthersLeaveStore(s, e);
      if MAIN in s.callers {
        OtherStepKeepsCaller(s, e, MAIN);
      }
    } else if MAIN in s.callers {
      MainStepKeepsCloses(s, e);
    }
    CallersOnlyArrive(s, e);
  }

  lemma CallersOnlyArrive(s: State, e: Event)
    requires Enabled(s, e)
    ensures Next(s, e).callers.Keys == s.callers.Keys + if e.Arrive? then {e.c} else {}
  {
  }

  lemma {:induction false} RunKeepsMainCloses(s: State, es: seq<Event>, s': State)
    requires Inv(s) && MainCloses(s) && Leads(s, es, s') && ServerRun(es)
    ensures MainCloses(s')
    decreases |es|
  {
    if es != [] {
      StepKeepsMainCloses(s, es[0]);
      assert Leads(s, [es[0]], Next(s, es[0])) by {
        assert [es[0]][1..] == [];
      }
      RunKeepsInv(s, [es[0]], Next(s, es[0]));
      RunKeepsMainCloses(Next(s, es[0]), es[1..], s');
    }
  }

  /** In every run of the server group: Close follows Shutdown, which follows the
      return of all six goroutines; the store is closed at most once, and exactly
      once when runServers is done. */
  lemma StoreClosedOnce(es: seq<Event>, s: State)
    requires Leads(START, es, s) && ServerRun(es)
    ensures s.storeCloses <= 1
    ensures s.storeCloses == 1 ==>
      MAIN in s.callers && s.callers[MAIN].pastReaper && s.returned == GROUP && s.reaper == Exited
    ensures Finished(s, MAIN) ==> s.storeCloses == 1
  {
    RunKeepsInv(START, es, s);
    RunKeepsMainCloses(START, es, s);
  }
}
