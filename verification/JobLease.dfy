/** The lease of one async-search job over any number of nodes: who claims it, who
    executes it at which epoch, and how it ends (internal/domain/search/reaper.go
    and service.go over the store of SearchJobs). Each event is one step under the
    store's lock, or one local step of a node; events interleave freely. */
module JobLease {
  import opened Json
  import opened Versions
  import opened SearchJobs

  /** Where the holder of an epoch has got to. A claimer decides, clears the old
      results, queues the job; a worker then runs it. */
  datatype Phase = Deciding | Ready | Waiting | Working | Gone

  /** The claimed job's loss count, the hand-overs before it, and the results its
      execution has stored so far. */
  datatype Holder = Holder(phase: Phase, losses: nat, handoffs: nat, saved: nat)

  /** `started` are the epochs that were executed. `wiped` counts results of the
      current epoch that a claimer of an earlier epoch cleared. */
  datatype Lease = Lease(
    job: Job, cap: nat, holders: map<nat, Holder>, started: set<nat>, handoffs: nat, wiped: nat)

  datatype Event =
    | Claim(now: int, staleAfter: int)
    | GiveUp(e: nat)
    | Clear(e: nat)
    | HandBack(e: nat)
    | Enqueue(e: nat)
    | Reject(e: nat)
    | Start(e: nat)
    | SaveChunk(e: nat, chunk: seq<Uuid>)
    | Finish(e: nat)
    | Fail(e: nat)
    | Beat(e: nat, now: int)
    | Release(e: nat)
    | Lose(e: nat)
    | Cancel

  /** A submitted job, queued at epoch 1. */
  function Submitted(cap: nat, created: int): Lease {
    Lease(NewJob(created), cap, map[1 := Holder(Waiting, 0, 0, 0)], {}, 0, 0)
  }

  predicate In(l: Lease, e: nat, phases: set<Phase>) {
    e in l.holders && l.holders[e].phase in phases
  }

  predicate Can(l: Lease, ev: Event) {
    match ev
    case Claim(now, staleAfter) => Claimable(l.job, now, staleAfter)
    case GiveUp(e) => In(l, e, {Deciding}) && l.cap <= l.holders[e].losses
    case Clear(e) => In(l, e, {Deciding}) && l.holders[e].losses < l.cap
    case HandBack(e) => In(l, e, {Deciding, Ready}) && l.holders[e].losses < l.cap
    case Enqueue(e) => In(l, e, {Ready})
    case Reject(e) => In(l, e, {Ready})
    case Start(e) => In(l, e, {Waiting})
    case SaveChunk(e, _) => In(l, e, {Working})
    case Finish(e) => In(l, e, {Working})
    case Fail(e) => In(l, e, {Working})
    case Beat(e, _) => In(l, e, {Waiting, Working})
    case Release(e) => In(l, e, {Waiting, Working})
    case Lose(e) => e in l.holders
    case Cancel => true
  }

  function Move(l: Lease, e: nat, phase: Phase): Lease
    requires e in l.holders
  {
    l.(holders := l.holders[e := l.holders[e].(phase := phase)])
  }

  /** A write that the guard refuses changes nothing. */
  function Write(l: Lease, e: nat, job: Job): Lease {
    if Guard(l.job, e) then l.(job := job) else l
  }

  function Next(l: Lease, ev: Event): Lease
    requires Can(l, ev)
  {
    match ev
    case Claim(now, _) =>
      var handoffs := if l.job.released then l.handoffs + 1 else l.handoffs;
      var job := Taken(l.job, now);
      l.(job := job, handoffs := handoffs, wiped := 0,
         holders := l.holders[job.epoch := Holder(Deciding, job.staleClaims, handoffs, 0)])
    case GiveUp(e) => Move(Write(l, e, l.job.(status := Failed, resultCount := 0)), e, Gone)
    case Clear(e) =>
      Move(l.(job := l.job.(ids := []), wiped := if e == l.job.epoch then 0 else l.wiped + |l.job.ids|), e, Ready)
    case HandBack(e) => Move(Write(l, e, l.job.(released := true)), e, Gone)
    case Enqueue(e) => Move(l, e, Waiting)
    case Reject(e) => Move(Write(l, e, l.job.(status := Failed, resultCount := 0)), e, Gone)
    case Start(e) => Move(l.(started := l.started + {e}), e, Working)
    case SaveChunk(e, chunk) =>
      if Guard(l.job, e)
      then l.(job := l.job.(ids := l.job.ids + chunk),
              holders := l.holders[e := l.holders[e].(saved := l.holders[e].saved + |chunk|)])
      else Move(l, e, Gone)
    case Finish(e) => Move(Write(l, e, l.job.(status := Successful, resultCount := l.holders[e].saved)), e, Gone)
    case Fail(e) => Move(Write(l, e, l.job.(status := Failed, resultCount := 0)), e, Gone)
    case Beat(e, now) => Write(l, e, l.job.(heartbeat := Some(now)))
    case Release(e) =>
      var l' := Write(l, e, l.job.(released := true));
      if l.holders[e].phase == Waiting then Move(l', e, Gone) else l'
    case Lose(e) => Move(l, e, Gone)
    case Cancel => if l.job.status == Running then l.(job := l.job.(status := Cancelled)) else l
  }

  ghost predicate Leads(l: Lease, evs: seq<Event>, l': Lease)
    decreases |evs|
  {
    if evs == [] then l == l' else Can(l, evs[0]) && Leads(Next(l, evs[0]), evs[1..], l')
  }

  // --- the invariant -----------------------------------------------------

  predicate HolderOk(l: Lease, e: nat)
    requires e in l.holders
  {
    var h := l.holders[e];
    && 1 <= e <= l.job.epoch && e == 1 + h.losses + h.handoffs && h.handoffs <= l.handoffs
    && (e == l.job.epoch ==> h.losses == l.job.staleClaims)
    && (h.phase in {Ready, Waiting, Working} ==> h.losses < l.cap)
    && (h.phase in {Deciding, Ready, Waiting} ==> e !in l.started && h.saved == 0)
  }

  /** What the current holder has stored is what the job shows, but for wipes. */
  predicate ResultsOk(l: Lease) {
    && (l.job.epoch in l.holders ==>
          var h := l.holders[l.job.epoch];
          && (h.phase in {Ready, Waiting} ==> l.job.ids == [] && l.wiped == 0 && h.saved == 0)
          && (h.phase == Working ==> |l.job.ids| + l.wiped == h.saved))
    && (l.job.status == Successful ==>
          |l.job.ids| + l.wiped == l.job.resultCount && !In(l, l.job.epoch, {Deciding}))
  }

  predicate LeaseOk(l: Lease) {
    && l.cap >= 1
    && l.job.epoch == 1 + l.job.staleClaims + l.handoffs
    && (l.cap <= l.job.staleClaims ==> !l.job.released)
    && (forall e :: e in l.holders ==> HolderOk(l, e))
    && (forall e :: e in l.started ==> e in l.holders && 1 <= e <= l.cap + l.handoffs)
    && ResultsOk(l)
  }

  lemma EpochIsNewest(l: Lease)
    requires LeaseOk(l)
    ensures l.job.epoch + 1 !in l.holders && l.job.epoch + 1 !in l.started
  {
    assert forall e :: e in l.holders ==> HolderOk(l, e) && e <= l.job.epoch;
  }

  predicate MayMove(l: Lease, e: nat, phase: Phase) {
    match phase
    case Gone => e in l.holders
    case Ready =>
      && In(l, e, {Deciding}) && l.holders[e].losses < l.cap
      && (e == l.job.epoch ==> l.job.ids == [] && l.wiped == 0)
    case Waiting => In(l, e, {Ready})
    case Working => In(l, e, {Waiting})
    case Deciding => false
  }

  lemma MoveKeepsLease(l: Lease, e: nat, phase: Phase)
    requires LeaseOk(l) && MayMove(l, e, phase)
    ensures LeaseOk(Move(l, e, phase))
  {
    var l' := Move(l, e, phase);
    forall x | x in l'.holders ensures HolderOk(l', x) {
      assert HolderOk(l, x);
    }
    assert HolderOk(l, e);
  }

  /** The job may change in all but its terms and results, and succeed with the count it
      shows. */
  lemma JobKeepsLease(l: Lease, job: Job)
    requires LeaseOk(l) && job.epoch == l.job.epoch && job.staleClaims == l.job.staleClaims && job.ids == l.job.ids
    requires l.cap <= job.staleClaims ==> !job.released
    requires job.status == Successful ==> |job.ids| + l.wiped == job.resultCount && !In(l, job.epoch, {Deciding})
    ensures LeaseOk(l.(job := job))
  {
    forall x | x in l.holders ensures HolderOk(l.(job := job), x) {
      assert HolderOk(l, x);
    }
  }

  lemma ClaimKeepsLease(l: Lease, now: int, staleAfter: int)
    requires LeaseOk(l) && Can(l, Claim(now, staleAfter))
    ensures LeaseOk(Next(l, Claim(now, staleAfter)))
  {
    var l' := Next(l, Claim(now, staleAfter));
    forall x | x in l'.holders ensures HolderOk(l', x) {
      if x in l.holders {
        assert HolderOk(l, x);
      }
    }
    EpochIsNewest(l);
  }

  lemma ClearKeepsLease(l: Lease, e: nat)
    requires LeaseOk(l) && Can(l, Clear(e))
    ensures LeaseOk(Next(l, Clear(e)))
  {
    var l' := l.(job := l.job.(ids := []), wiped := if e == l.job.epoch then 0 else l.wiped + |l.job.ids|);
    forall x | x in l'.holders ensures HolderOk(l', x) {
      assert HolderOk(l, x);
    }
    MoveKeepsLease(l', e, Ready);
  }

  lemma StartKeepsLease(l: Lease, e: nat)
    requires LeaseOk(l) && Can(l, Start(e))
    ensures LeaseOk(Next(l, Start(e)))
  {
    MoveKeepsLease(l, e, Working);
    var m, l' := Move(l, e, Working), Next(l, Start(e));
    forall x | x in l'.holders ensures HolderOk(l', x) {
      assert HolderOk(m, x);
    }
    assert HolderOk(l, e);
  }

  lemma ChunkKeepsLease(l: Lease, e: nat, chunk: seq<Uuid>)
    requires LeaseOk(l) && Can(l, SaveChunk(e, chunk))
    ensures LeaseOk(Next(l, SaveChunk(e, chunk)))
  {
    if Guard(l.job, e) {
      var l' := Next(l, SaveChunk(e, chunk));
      forall x | x in l'.holders ensures HolderOk(l', x) {
        assert HolderOk(l, x);
      }
    } else {
      MoveKeepsLease(l, e, Gone);
    }
  }

  /** A guarded write of the holder of `e`, which then leaves. */
  lemma LeaveKeepsLease(l: Lease, e: nat, job: Job)
    requires LeaseOk(l) && e in l.holders
    requires job == l.job.(status := Failed, resultCount := 0) ||
             (job == l.job.(released := true) && l.holders[e].losses < l.cap) ||
             (job == l.job.(status := Successful, resultCount := l.holders[e].saved) && l.holders[e].phase == Working)
    ensures LeaseOk(Write(l, e, job)) && LeaseOk(Move(Write(l, e, job), e, Gone))
  {
    assert HolderOk(l, e);
    if Guard(l.job, e) {
      JobKeepsLease(l, job);
    }
    MoveKeepsLease(Write(l, e, job), e, Gone);
  }

  lemma LeavingKeepsLease(l: Lease, ev: Event)
    requires LeaseOk(l) && Can(l, ev)
    requires ev.GiveUp? || ev.HandBack? || ev.Reject? || ev.Finish? || ev.Fail? || ev.Release?
    ensures LeaseOk(Next(l, ev))
  {
    assert HolderOk(l, ev.e);
    LeaveKeepsLease(l, ev.e,
                    if ev.HandBack? || ev.Release? then l.job.(released := true)
                    else if ev.Finish? then l.job.(status := Successful, resultCount := l.holders[ev.e].saved)
                    else l.job.(status := Failed, resultCount := 0));
  }

  lemma StepKeepsLease(l: Lease, ev: Event)
    requires LeaseOk(l) && Can(l, ev)
    ensures LeaseOk(Next(l, ev))
  {
    match ev
    case Claim(now, staleAfter) => ClaimKeepsLease(l, now, staleAfter);
    case Clear(e) => ClearKeepsLease(l, e);
    case Start(e) => StartKeepsLease(l, e);
    case SaveChunk(e, chunk) => ChunkKeepsLease(l, e, chunk);
    case Enqueue(e) => MoveKeepsLease(l, e, Waiting);
    case Lose(e) => MoveKeepsLease(l, e, Gone);
    case Beat(e, now) => JobKeepsLease(l, l.job.(heartbeat := Some(now)));
    case Cancel => JobKeepsLease(l, l.job.(status := Cancelled));
    case _ => LeavingKeepsLease(l, ev);
  }

  lemma {:induction false} RunKeepsLease(l: Lease, evs: seq<Event>, l': Lease)
    requires LeaseOk(l) && Leads(l, evs, l')
    ensures LeaseOk(l')
    decreases |evs|
  {
    if evs != [] {
      StepKeepsLease(l, evs[0]);
      RunKeepsLease(Next(l, evs[0]), evs[1..], l');
    }
  }

  // --- attempts ----------------------------------------------------------

  lemma {:induction false} SizeOfRange(s: set<nat>, n: nat)
    requires forall e :: e in s ==> 1 <= e <= n
    ensures |s| <= n
  {
    if n == 0 {
      assert s == {};
    } else {
      SizeOfRange(s - {n}, n - 1);
      assert s <= (s - {n}) + {n};
      if n in s { assert |s| == |s - {n}| + 1; } else { assert s - {n} == s; }
    }
  }

  /** In every run, a job is executed at most the attempt cap plus once per graceful
      hand-over, and every claim counts either as a loss or as a hand-over. */
  lemma ExecutionsAreCapped(cap: nat, created: int, evs: seq<Event>, l: Lease)
    requires cap >= 1 && Leads(Submitted(cap, created), evs, l)
    ensures |l.started| <= cap + l.handoffs
    ensures l.job.epoch == 1 + l.job.staleClaims + l.handoffs
  {
    RunKeepsLease(Submitted(cap, created), evs, l);
    CapIsConstant(Submitted(cap, created), evs, l);
    SizeOfRange(l.started, cap + l.handoffs);
  }

  lemma {:induction false} CapIsConstant(l: Lease, evs: seq<Event>, l': Lease)
    requires Leads(l, evs, l')
    ensures l'.cap == l.cap
    decreases |evs|
  {
    if evs != [] {
      CapIsConstant(Next(l, evs[0]), evs[1..], l');
    }
  }

  /** An epoch is executed at most once, and only if fewer than `cap` executors had
      been lost when it was claimed; a claimer that decides gives up exactly otherwise. */
  lemma StartsBelowTheCap(cap: nat, created: int, evs: seq<Event>, l: Lease, e: nat)
    requires cap >= 1 && Leads(Submitted(cap, created), evs, l)
    ensures Can(l, Start(e)) ==> l.holders[e].losses < cap && e !in l.started
    ensures In(l, e, {Deciding}) ==> (Can(l, GiveUp(e)) <==> cap <= l.holders[e].losses)
    ensures Can(l, GiveUp(e)) && Guard(l.job, e) ==>
      cap <= l.job.staleClaims && Next(l, GiveUp(e)).job.status == Failed
  {
    RunKeepsLease(Submitted(cap, created), evs, l);
    CapIsConstant(Submitted(cap, created), evs, l);
    if e in l.holders {
      assert HolderOk(l, e);
    }
  }

  function Claims(evs: seq<Event>): nat {
    if evs == [] then 0 else (if evs[0].Claim? then 1 else 0) + Claims(evs[1..])
  }

  /** From the cap-th loss on, in every continuation: no epoch claimed at or after it
      starts, the job never becomes successful, nothing releases it, and each further
      claim is one more loss. */
  lemma {:induction false} PastTheCap(l: Lease, evs: seq<Event>, l': Lease)
    requires LeaseOk(l) && Leads(l, evs, l') && l.cap <= l.job.staleClaims && l.job.status == Running
    ensures LeaseOk(l') && l'.job.status != Successful && l'.handoffs == l.handoffs
    ensures forall e :: e in l'.started ==> e < l.job.epoch
    ensures l'.job.staleClaims == l.job.staleClaims + Claims(evs)
    decreases |evs|
  {
    CapIsConstant(l, evs, l');
    if evs != [] {
      var mid := Next(l, evs[0]);
      StepKeepsLease(l, evs[0]);
      PastTheCapStep(l, evs[0]);
      if mid.job.status == Running {
        PastTheCap(mid, evs[1..], l');
      } else {
        RunKeepsLease(mid, evs[1..], l');
        TerminalIsFinal(mid, evs[1..], l');
      }
    }
  }

  lemma PastTheCapStep(l: Lease, ev: Event)
    requires LeaseOk(l) && Can(l, ev) && l.cap <= l.job.staleClaims && l.job.status == Running
    ensures Next(l, ev).job.status != Successful && Next(l, ev).handoffs == l.handoffs
    ensures Next(l, ev).job.staleClaims == l.job.staleClaims + if ev.Claim? then 1 else 0
  {
    if l.job.epoch in l.holders {
      assert HolderOk(l, l.job.epoch);
    }
  }

  /** Every claim of the run takes a job that was released. */
  ghost predicate OnlyHandovers(l: Lease, evs: seq<Event>)
    decreases |evs|
  {
    evs == [] ||
    (Can(l, evs[0]) && (evs[0].Claim? ==> l.job.released) && OnlyHandovers(Next(l, evs[0]), evs[1..]))
  }

  /** Hand-overs cost nothing: however often a job is released and claimed again, no
      loss is counted and no claimer can fail it by the cap. */
  lemma {:induction false} HandoversCostNothing(l: Lease, evs: seq<Event>, l': Lease)
    requires LeaseOk(l) && Leads(l, evs, l') && OnlyHandovers(l, evs) && l.job.staleClaims < l.cap
    ensures l'.job.staleClaims == l.job.staleClaims
    ensures forall e :: Can(l', GiveUp(e)) ==> !Guard(l'.job, e)
    decreases |evs|
  {
    if evs != [] {
      StepKeepsLease(l, evs[0]);
      HandoversCostNothing(Next(l, evs[0]), evs[1..], l');
    } else if l.job.epoch in l.holders {
      assert HolderOk(l, l.job.epoch);
    }
  }

  /** The reaper fails a job at exactly its cap-th loss if and only if no further claim
      came between that loss and the failure. */
  lemma FailsAtTheCapExactlyWhen(cap: nat, created: int, evs: seq<Event>, l: Lease, more: seq<Event>, l': Lease, e: nat)
    requires cap >= 1 && Leads(Submitted(cap, created), evs, l)
    requires l.job.staleClaims == cap && l.job.status == Running
    requires Leads(l, more, l') && Can(l', GiveUp(e)) && Guard(l'.job, e)
    ensures Next(l', GiveUp(e)).job.status == Failed
    ensures Next(l', GiveUp(e)).job.staleClaims == cap <==> Claims(more) == 0
  {
    RunKeepsLease(Submitted(cap, created), evs, l);
    CapIsConstant(Submitted(cap, created), evs, l);
    PastTheCap(l, more, l');
  }

  /** Claims can come between: with a cap of one, a reaper that dies while deciding
      leaves the job running with two losses. */
  lemma LossesPassTheCap()
    ensures exists evs, l :: Leads(Submitted(1, 0), evs, l) && l.job.status == Running && l.job.staleClaims == 2
  {
    var l0 := Submitted(1, 0);
    var l1 := Next(l0, Claim(100, 10));
    var l2 := Next(l1, Lose(2));
    var l3 := Next(l2, Claim(200, 10));
    assert Leads(l3, [], l3);
    Prefix(l2, Claim(200, 10), [], l3);
    Prefix(l1, Lose(2), [Claim(200, 10)] + [], l3);
    Prefix(l0, Claim(100, 10), [Lose(2)] + ([Claim(200, 10)] + []), l3);
  }

  // --- the end of a job --------------------------------------------------

  predicate SameVerdict(a: Job, b: Job) {
    a.status == b.status && a.epoch == b.epoch && a.staleClaims == b.staleClaims && a.resultCount == b.resultCount
  }

  /** Once terminal, always so, with the same verdict; no claim can take the job;
      its stored results stay, unless a claimer clears them. */
  lemma {:induction false} TerminalIsFinal(l: Lease, evs: seq<Event>, l': Lease)
    requires Leads(l, evs, l') && l.job.status != Running
    ensures SameVerdict(l.job, l'.job) && l'.handoffs == l.handoffs
    ensures Claims(evs) == 0 && forall now, staleAfter :: !Can(l', Claim(now, staleAfter))
    ensures l'.job.ids == l.job.ids || (l'.job.ids == [] && exists i :: 0 <= i < |evs| && evs[i].Clear?)
    decreases |evs|
  {
    if evs != [] {
      TerminalIsFinal(Next(l, evs[0]), evs[1..], l');
      if i :| 0 <= i < |evs[1..]| && evs[1..][i].Clear? {
        assert evs[i + 1].Clear?;
      }
    }
  }

  /** On its way to an execution, and below the cap. */
  predicate Pending(l: Lease, e: nat) {
    In(l, e, {Deciding, Ready, Waiting}) && l.holders[e].losses < l.cap
  }

  ghost predicate MayStillStart(l: Lease, e: nat) {
    exists evs, l' :: Leads(l, evs, l') && e !in l.started && e in l'.started
  }

  lemma {:induction false} StartsWerePending(l: Lease, evs: seq<Event>, l': Lease, e: nat)
    requires LeaseOk(l) && Leads(l, evs, l') && l.job.status != Running && e !in l.started && e in l'.started
    ensures Pending(l, e)
    decreases |evs|
  {
    var mid := Next(l, evs[0]);
    StepKeepsLease(l, evs[0]);
    if e !in mid.started {
      TerminalStays(l, evs[0]);
      StartsWerePending(mid, evs[1..], l', e);
      PendingBefore(l, evs[0], e);
    } else {
      StartWasPending(l, evs[0], e);
    }
  }

  lemma TerminalStays(l: Lease, ev: Event)
    requires Can(l, ev) && l.job.status != Running
    ensures Next(l, ev).job.status == l.job.status && !ev.Claim?
  {
  }

  lemma PendingBefore(l: Lease, ev: Event, e: nat)
    requires LeaseOk(l) && Can(l, ev) && l.job.status != Running && Pending(Next(l, ev), e)
    ensures Pending(l, e)
  {
    assert !ev.Claim?;
  }

  lemma StartWasPending(l: Lease, ev: Event, e: nat)
    requires LeaseOk(l) && Can(l, ev) && e !in l.started && e in Next(l, ev).started
    ensures Pending(l, e)
  {
    assert ev == Start(e) && HolderOk(l, e);
  }

  /** Whoever is on its way can get there. */
  lemma PendingCanStart(l: Lease, e: nat) returns (evs: seq<Event>, l': Lease)
    requires Pending(l, e)
    ensures Leads(l, evs, l') && e in l'.started
    decreases if l.holders[e].phase == Deciding then 2 else if l.holders[e].phase == Ready then 1 else 0
  {
    if l.holders[e].phase == Waiting {
      l' := Next(l, Start(e));
      evs := [Start(e)] + [];
      assert Leads(l', [], l');
      Prefix(l, Start(e), [], l');
    } else {
      var ev := if l.holders[e].phase == Deciding then Clear(e) else Enqueue(e);
      var rest;
      rest, l' := PendingCanStart(Next(l, ev), e);
      evs := [ev] + rest;
      Prefix(l, ev, rest, l');
    }
  }

  /** After the end, an epoch can still be executed exactly when its holder is already
      on its way; what it then does changes nothing of the verdict and adds no result. */
  lemma StartsAfterTheEndExactlyWhen(cap: nat, created: int, evs: seq<Event>, l: Lease, e: nat)
    requires cap >= 1 && Leads(Submitted(cap, created), evs, l) && l.job.status != Running
    ensures MayStillStart(l, e) <==> Pending(l, e)
  {
    RunKeepsLease(Submitted(cap, created), evs, l);
    if MayStillStart(l, e) {
      var more, l' :| Leads(l, more, l') && e !in l.started && e in l'.started;
      StartsWerePending(l, more, l', e);
    }
    if Pending(l, e) {
      assert HolderOk(l, e);
      var more, l' := PendingCanStart(l, e);
    }
  }

  /** A run in which a queued job is cancelled and its execution starts afterwards. */
  lemma StartsAfterCancel()
    ensures Leads(Submitted(1, 0), [Cancel, Start(1)], Next(Next(Submitted(1, 0), Cancel), Start(1)))
    ensures Next(Submitted(1, 0), Cancel).job.status == Cancelled
  {
    var l := Next(Next(Submitted(1, 0), Cancel), Start(1));
    assert Leads(l, [], l);
    Prefix(Next(Submitted(1, 0), Cancel), Start(1), [], l);
    Prefix(Submitted(1, 0), Cancel, [Start(1)] + [], l);
    assert [Cancel] + ([Start(1)] + []) == [Cancel, Start(1)];
  }

  /** A successful job holds all the results it reports exactly when no claimer of
      an earlier epoch cleared them: ClearResults is not fenced by epoch. */
  lemma SuccessIsCompleteExactlyWhen(cap: nat, created: int, evs: seq<Event>, l: Lease)
    requires cap >= 1 && Leads(Submitted(cap, created), evs, l) && l.job.status == Successful
    ensures |l.job.ids| == l.job.resultCount <==> l.wiped == 0
  {
    RunKeepsLease(Submitted(cap, created), evs, l);
  }

  /** Results are wiped only by a clear that comes after a later claim. */
  lemma {:induction false} WipesAreLateClears(l: Lease, evs: seq<Event>, l': Lease)
    requires LeaseOk(l) && Leads(l, evs, l') && l.wiped == 0 && ClearsInTime(l, evs)
    ensures l'.wiped == 0
    decreases |evs|
  {
    if evs != [] {
      StepKeepsLease(l, evs[0]);
      WipesAreLateClears(Next(l, evs[0]), evs[1..], l');
    }
  }

  /** Every clear happens while its claimer still holds the current epoch. */
  ghost predicate ClearsInTime(l: Lease, evs: seq<Event>)
    decreases |evs|
  {
    evs == [] ||
    (Can(l, evs[0]) && (evs[0].Clear? ==> evs[0].e == l.job.epoch) && ClearsInTime(Next(l, evs[0]), evs[1..]))
  }

  /** A run in which a slow reaper clears the results of a job that a later claim
      has meanwhile completed: successful, one result reported, none stored. */
  lemma LateClearLosesResults()
    ensures exists evs, l :: Leads(Submitted(3, 0), evs, l) &&
                             l.job.status == Successful && l.job.resultCount == 1 && l.job.ids == []
  {
    var l0 := Submitted(3, 0);
    var l1 := Next(l0, Claim(100, 10));
    var l2 := Next(l1, Claim(200, 10));
    var l5 := Executed(l2, 3);
    var evs, l8 := WipedLate(l5, 2, 3);
    var evs' := [Clear(3), Enqueue(3), Start(3)] + evs;
    Concat(l2, [Clear(3), Enqueue(3), Start(3)], l5, evs, l8);
    Prefix(l1, Claim(200, 10), evs', l8);
    Prefix(l0, Claim(100, 10), [Claim(200, 10)] + evs', l8);
  }

  lemma Executed(l: Lease, e: nat) returns (l': Lease)
    requires Can(l, Clear(e)) && e == l.job.epoch && l.job.status == Running
    ensures Leads(l, [Clear(e), Enqueue(e), Start(e)], l')
    ensures l'.job == l.job.(ids := []) && l'.cap == l.cap
    ensures l'.holders == l.holders[e := l.holders[e].(phase := Working)]
  {
    var l1 := Next(l, Clear(e));
    var l2 := Next(l1, Enqueue(e));
    l' := Next(l2, Start(e));
    assert Leads(l', [], l');
    Prefix(l2, Start(e), [], l');
    Prefix(l1, Enqueue(e), [Start(e)], l');
    Prefix(l, Clear(e), [Enqueue(e), Start(e)], l');
    assert [Clear(e)] + [Enqueue(e), Start(e)] == [Clear(e), Enqueue(e), Start(e)];
  }

  lemma WipedLate(l: Lease, late: nat, e: nat) returns (evs: seq<Event>, l': Lease)
    requires late < e == l.job.epoch && l.job.status == Running && In(l, e, {Working}) && Can(l, Clear(late))
    requires l.job.ids == [] && l.holders[e].saved == 0
    ensures Leads(l, evs, l')
    ensures l'.job.status == Successful && l'.job.resultCount == 1 && l'.job.ids == []
  {
    var l1 := Next(l, SaveChunk(e, [7]));
    var l2 := Next(l1, Finish(e));
    l' := Next(l2, Clear(late));
    evs := [SaveChunk(e, [7])] + ([Finish(e)] + ([Clear(late)] + []));
    assert Leads(l', [], l');
    Prefix(l2, Clear(late), [], l');
    Prefix(l1, Finish(e), [Clear(late)] + [], l');
    Prefix(l, SaveChunk(e, [7]), [Finish(e)] + ([Clear(late)] + []), l');
  }

  lemma {:induction false} Concat(l: Lease, evs: seq<Event>, l': Lease, evs': seq<Event>, l'': Lease)
    requires Leads(l, evs, l') && Leads(l', evs', l'')
    ensures Leads(l, evs + evs', l'')
    decreases |evs|
  {
    if evs == [] {
      assert evs + evs' == evs';
    } else {
      Concat(Next(l, evs[0]), evs[1..], l', evs', l'');
      assert (evs + evs')[1..] == evs[1..] + evs';
    }
  }

  lemma Prefix(l: Lease, ev: Event, evs: seq<Event>, l': Lease)
    requires Can(l, ev) && Leads(Next(l, ev), evs, l')
    ensures Leads(l, [ev] + evs, l')
  {
    assert ([ev] + evs)[1..] == evs;
  }

  // --- staleness and the heartbeat ---------------------------------------

  const MIN_INT64: int := -0x8000_0000_0000_0000
  const MAX_INT64: int := 0x7fff_ffff_ffff_ffff
  const MIN_MULTIPLE: int := 4

  /** A 64-bit product wraps around. */
  function Wrap(x: int): (r: int)
    ensures MIN_INT64 <= r <= MAX_INT64
  {
    (x - MIN_INT64) % 0x1_0000_0000_0000_0000 + MIN_INT64
  }

  /** ValidateSearchJobStaleAfter. */
  predicate Accepts(staleAfter: int, interval: int) {
    staleAfter >= Wrap(MIN_MULTIPLE * interval)
  }

  const TWO_TO_61: int := 0x2000_0000_0000_0000

  /** The check compares with four intervals wrapped into 64 bits. */
  lemma Threshold(interval: int)
    requires 1 <= interval <= MAX_INT64
    ensures Wrap(MIN_MULTIPLE * interval) ==
      if interval < TWO_TO_61 then MIN_MULTIPLE * interval
      else if interval < 3 * TWO_TO_61 then MIN_MULTIPLE * interval - 8 * TWO_TO_61
      else MIN_MULTIPLE * interval - 16 * TWO_TO_61
  {
    var x, y := MIN_MULTIPLE * interval - MIN_INT64, 8 * TWO_TO_61;
    if interval < TWO_TO_61 {
      assert x % y == x;
    } else if interval < 3 * TWO_TO_61 {
      assert x == y + (x - y) && 0 <= x - y < y;
      assert x % y == x - y;
    } else {
      assert x == 2 * y + (x - 2 * y) && 0 <= x - 2 * y < y;
      assert x % y == x - 2 * y;
    }
  }

  /** The check accepts exactly the durations of at least four intervals, for all
      durations at once, exactly when four intervals fit in 64 bits. */
  lemma AcceptsExactlyWhen(interval: int)
    requires 1 <= interval <= MAX_INT64
    ensures (forall staleAfter :: MIN_INT64 <= staleAfter <= MAX_INT64 ==>
               (Accepts(staleAfter, interval) <==> staleAfter >= MIN_MULTIPLE * interval)) <==>
            interval <= MAX_INT64 / MIN_MULTIPLE
  {
    Threshold(interval);
    if interval > MAX_INT64 / MIN_MULTIPLE {
      assert Accepts(MAX_INT64, interval);
    }
  }

  /** It accepts every duration that is not negative, however small, exactly when the
      wrapped product is negative or zero. */
  lemma AcceptsAnythingExactlyWhen(interval: int)
    requires 1 <= interval <= MAX_INT64
    ensures (forall staleAfter :: 0 <= staleAfter <= MAX_INT64 ==> Accepts(staleAfter, interval)) <==>
            TWO_TO_61 <= interval <= 2 * TWO_TO_61 || 3 * TWO_TO_61 <= interval
  {
    Threshold(interval);
    assert Accepts(0, interval) <==> Wrap(MIN_MULTIPLE * interval) <= 0;
  }

  /** An event and the instant it happens at. */
  datatype Timed = Timed(at: int, ev: Event)

  function Events(run: seq<Timed>): seq<Event> {
    if run == [] then [] else [run[0].ev] + Events(run[1..])
  }

  /** A holder's planned stamps: each less than four intervals after the one before it,
      the first counted from `last`. */
  predicate Spaced(last: int, beats: seq<int>, interval: int) {
    && beats != []
    && last <= beats[0] < last + MIN_MULTIPLE * interval
    && forall i :: 0 < i < |beats| ==> beats[i - 1] <= beats[i] < beats[i - 1] + MIN_MULTIPLE * interval
  }

  /** Time does not go back, sweeps use one staleness, and whoever holds the running job
      stamps it as planned: nothing happens past the next planned stamp before that stamp.
      A hand-over restarts the plan with the new holder's. */
  ghost predicate Punctual(l: Lease, run: seq<Timed>, clock: int, last: int, beats: seq<int>,
                           plan: nat -> seq<int>, staleAfter: int, interval: int)
    decreases |run|
  {
    && Spaced(last, beats, interval) && last <= clock
    && (run == [] ||
        var x, rest := run[0], run[1..];
        && Can(l, x.ev) && clock <= x.at
        && (l.job.status == Running && !l.job.released ==> x.at <= beats[0])
        && (x.ev.Claim? ==> x.ev.now == x.at && x.ev.staleAfter == staleAfter)
        && (x.ev.Beat? ==> x.ev.now == x.at)
        && if x.ev.Claim? then
             Punctual(Next(l, x.ev), rest, x.at, x.at, plan(l.job.epoch + 1), plan, staleAfter, interval)
           else if x.ev.Beat? && Guard(l.job, x.ev.e) && !l.job.released then
             x.at == beats[0] && |beats| > 1 &&
             Punctual(Next(l, x.ev), rest, x.at, x.at, beats[1..], plan, staleAfter, interval)
           else if x.ev.Beat? && Guard(l.job, x.ev.e) then
             Punctual(Next(l, x.ev), rest, x.at, x.at, [x.at], plan, staleAfter, interval)
           else Punctual(Next(l, x.ev), rest, x.at, last, beats, plan, staleAfter, interval))
  }

  /** A holder whose stamps, counted from the job's creation or its claim, are always
      less than four intervals apart is never taken for lost: in no run, whenever the
      sweeps fall between its stamps, is a loss counted. */
  lemma {:induction false} PunctualIsNeverStale(
      l: Lease, run: seq<Timed>, l': Lease, clock: int, last: int, beats: seq<int>, plan: nat -> seq<int>,
      staleAfter: int, interval: int)
    requires Leads(l, Events(run), l') && last == Baseline(l.job)
    requires Punctual(l, run, clock, last, beats, plan, staleAfter, interval)
    requires 1 <= interval <= MAX_INT64 / MIN_MULTIPLE && Accepts(staleAfter, interval)
    requires MIN_INT64 <= staleAfter <= MAX_INT64
    ensures l'.job.staleClaims == l.job.staleClaims
    decreases |run|
  {
    AcceptsExactlyWhen(interval);
    if run != [] {
      var x, rest, mid := run[0], run[1..], Next(l, run[0].ev);
      assert Events(run)[1..] == Events(rest);
      if x.ev.Claim? {
        PunctualIsNeverStale(mid, rest, l', x.at, x.at, plan(l.job.epoch + 1), plan, staleAfter, interval);
      } else if x.ev.Beat? && Guard(l.job, x.ev.e) {
        var beats' := if l.job.released then [x.at] else beats[1..];
        PunctualIsNeverStale(mid, rest, l', x.at, x.at, beats', plan, staleAfter, interval);
      } else {
        PunctualIsNeverStale(mid, rest, l', x.at, last, beats, plan, staleAfter, interval);
      }
    }
  }
}
