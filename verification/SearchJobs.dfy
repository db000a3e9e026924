/** The async-search job store (plugins/memory/search_store.go): epoch-fenced
    writes, stale claims and graceful releases. */
module SearchJobs {
  import opened Json
  import opened Versions

  datatype Status = Running | Successful | Failed | Cancelled

  datatype Job = Job(
    status: Status, epoch: nat, staleClaims: nat, released: bool,
    created: int, heartbeat: Option<int>, ids: seq<Uuid>, resultCount: nat)

  function NewJob(created: int): Job {
    Job(Running, 1, 0, false, created, None, [], 0)
  }

  /** guardWrite: not terminal, and the writer's epoch is the current one. */
  predicate Guard(job: Job, epoch: nat) {
    job.status == Running && epoch == job.epoch
  }

  function Baseline(job: Job): int {
    if job.heartbeat.Some? then job.heartbeat.value else job.created
  }

  /** What the reaper may take: a running job that was released, or whose last
      stamp lies before the cutoff. */
  predicate Claimable(job: Job, now: int, staleAfter: int) {
    job.status == Running && (job.released || Baseline(job) < now - staleAfter)
  }

  function Taken(job: Job, now: int): Job {
    job.(epoch := job.epoch + 1, staleClaims := if job.released then job.staleClaims else job.staleClaims + 1,
         released := false, heartbeat := Some(now))
  }

  datatype Outcome = Done | NotFound | AlreadyTerminal | StaleClaim | BadLimit

  function GuardOutcome(jobs: map<Uuid, Job>, id: Uuid, epoch: nat): Outcome {
    if id !in jobs then NotFound
    else if jobs[id].status != Running then AlreadyTerminal
    else if epoch != jobs[id].epoch then StaleClaim
    else Done
  }

  // --- oldest first ------------------------------------------------------

  predicate Older(jobs: map<Uuid, Job>, a: Uuid, b: Uuid)
    requires a in jobs && b in jobs
  {
    jobs[a].created < jobs[b].created || (jobs[a].created == jobs[b].created && a < b)
  }

  predicate Sorted(jobs: map<Uuid, Job>, ids: seq<Uuid>) {
    && (forall i :: 0 <= i < |ids| ==> ids[i] in jobs)
    && (forall i, j :: 0 <= i < j < |ids| ==> Older(jobs, ids[i], ids[j]))
  }

  /** One insertion of the sort by create time, then id. */
  method Insert(jobs: map<Uuid, Job>, ids: seq<Uuid>, id: Uuid) returns (r: seq<Uuid>)
    requires Sorted(jobs, ids) && id in jobs && id !in ids
    ensures Sorted(jobs, r)
    ensures |r| == |ids| + 1 && forall x :: x in r <==> x in ids || x == id
  {
    var i := |ids|;
    while i > 0 && Older(jobs, id, ids[i - 1])
      invariant 0 <= i <= |ids|
      invariant i < |ids| ==> Older(jobs, id, ids[i])
    {
      i := i - 1;
    }
    r := ids[..i] + [id] + ids[i..];
    if i > 0 {
      OlderIsTotal(jobs, id, ids[i - 1]);
    }
    InsertKeepsSorted(jobs, ids, id, i);
    assert ids == ids[..i] + ids[i..];
  }

  lemma OlderIsTotal(jobs: map<Uuid, Job>, a: Uuid, b: Uuid)
    requires a in jobs && b in jobs && a != b
    ensures Older(jobs, a, b) || Older(jobs, b, a)
  {
  }

  lemma InsertKeepsSorted(jobs: map<Uuid, Job>, ids: seq<Uuid>, id: Uuid, i: nat)
    requires Sorted(jobs, ids) && id in jobs && i <= |ids|
    requires i > 0 ==> Older(jobs, ids[i - 1], id)
    requires i < |ids| ==> Older(jobs, id, ids[i])
    ensures Sorted(jobs, ids[..i] + [id] + ids[i..])
  {
    var r := ids[..i] + [id] + ids[i..];
    forall j, k | 0 <= j < k < |r| ensures r[j] in jobs && r[k] in jobs && Older(jobs, r[j], r[k]) {
      assert r[j] == if j < i then ids[j] else if j == i then id else ids[j - 1];
      assert r[k] == if k < i then ids[k] else if k == i then id else ids[k - 1];
      if j < i && k == i && j < i - 1 {
        assert Older(jobs, ids[j], ids[i - 1]);
      } else if j == i && k > i + 1 {
        assert Older(jobs, ids[i], ids[k - 1]);
      }
    }
  }

  /** The first `n` of a sorted list are older than the rest. */
  lemma FrontIsOldest(jobs: map<Uuid, Job>, ids: seq<Uuid>, n: nat, c: Uuid, id: Uuid)
    requires Sorted(jobs, ids) && n <= |ids| && c in ids[..n] && id in ids && id !in ids[..n]
    ensures Older(jobs, c, id)
  {
    var i :| 0 <= i < |ids| && ids[i] == id;
    var j :| 0 <= j < n && ids[j] == c;
    assert forall m :: 0 <= m < n ==> ids[m] in ids[..n];
  }

  const CHUNK: nat := 1024

  /** What another party does to the job between two chunks of a drain: nothing, or
      cancel it or claim it before the given chunk. */
  datatype Cut = Uncut | Cut(chunk: nat, cancelled: bool)

  function CutJob(job: Job, how: Cut, now: int): Job
    requires how.Cut?
  {
    if how.cancelled then job.(status := Cancelled) else Taken(job, now)
  }

  function CutOutcome(how: Cut): Outcome
    requires how.Cut?
  {
    if how.cancelled then AlreadyTerminal else StaleClaim
  }

  /** A drain of `n` results makes one append for each full chunk and a last one. */
  predicate CutsShort(how: Cut, n: nat) {
    how.Cut? && how.chunk <= n / CHUNK
  }

  class SearchStore {
    var jobs: map<Uuid, Job>

    constructor ()
      ensures jobs == map[]
    {
      jobs := map[];
    }

    method CreateJob(id: Uuid, created: int)
      modifies this
      ensures jobs == old(jobs)[id := NewJob(created)]
    {
      jobs := jobs[id := Job(Running, 1, 0, false, created, None, [], 0)];
    }

    method GuardWrite(id: Uuid, epoch: nat) returns (r: Outcome)
      ensures r == GuardOutcome(jobs, id, epoch)
    {
      if id !in jobs {
        return NotFound;
      }
      if jobs[id].status != Running {
        return AlreadyTerminal;
      }
      return if epoch != jobs[id].epoch then StaleClaim else Done;
    }

    method UpdateJobStatus(id: Uuid, epoch: nat, status: Status, count: nat) returns (r: Outcome)
      modifies this
      ensures r == GuardOutcome(old(jobs), id, epoch)
      ensures jobs ==
              if r == Done then old(jobs)[id := old(jobs)[id].(status := status, resultCount := count)] else old(jobs)
    {
      r := GuardWrite(id, epoch);
      if r == Done {
        jobs := jobs[id := jobs[id].(status := status, resultCount := count)];
      }
    }

    method GuardAndAppend(id: Uuid, epoch: nat, chunk: seq<Uuid>) returns (r: Outcome)
      modifies this
      ensures r == GuardOutcome(old(jobs), id, epoch)
      ensures jobs == if r == Done then old(jobs)[id := old(jobs)[id].(ids := old(jobs)[id].ids + chunk)] else old(jobs)
    {
      r := GuardWrite(id, epoch);
      if r == Done {
        jobs := jobs[id := jobs[id].(ids := jobs[id].ids + chunk)];
      }
    }

    /** The store lock is free between two chunks: another party may come first. */
    method AppendUnlessCut(id: Uuid, epoch: nat, chunk: seq<Uuid>, cut: bool, how: Cut, now: int) returns (r: Outcome)
      requires id in jobs && Guard(jobs[id], epoch)
      modifies this
      ensures !cut || how.Uncut? ==>
        r == Done && jobs == old(jobs)[id := old(jobs)[id].(ids := old(jobs)[id].ids + chunk)]
      ensures cut && how.Cut? ==> r == CutOutcome(how) && jobs == old(jobs)[id := CutJob(old(jobs)[id], how, now)]
    {
      if cut && how.Cut? {
        jobs := jobs[id := CutJob(jobs[id], how, now)];
      }
      r := GuardAndAppend(id, epoch, chunk);
    }

    /** Results are drained in chunks, each behind the guard. A drain that another party
        cuts off before its n-th chunk leaves exactly the chunks before it. */
    method SaveResults(id: Uuid, epoch: nat, found: seq<Uuid>, how: Cut, now: int) returns (r: Outcome)
      modifies this
      ensures GuardOutcome(old(jobs), id, epoch) != Done ==>
        r == GuardOutcome(old(jobs), id, epoch) && jobs == old(jobs)
      ensures GuardOutcome(old(jobs), id, epoch) == Done ==>
        var job := old(jobs)[id];
        if CutsShort(how, |found|)
        then r == CutOutcome(how) &&
             jobs == old(jobs)[id := CutJob(job.(ids := job.ids + found[..how.chunk * CHUNK]), how, now)]
        else r == Done && jobs == old(jobs)[id := job.(ids := job.ids + found)]
    {
      r := GuardAndAppend(id, epoch, []);
      if r != Done {
        return;
      }
      var buf: seq<Uuid>, n := [], 0;
      ghost var before := old(jobs)[id].ids;
      assert before + [] == before;
      for i := 0 to |found|
        invariant id in jobs && Guard(jobs[id], epoch) && |buf| < CHUNK && i == n * CHUNK + |buf|
        invariant how.Cut? ==> n <= how.chunk
        invariant jobs == old(jobs)[id := old(jobs)[id].(ids := jobs[id].ids)]
        invariant jobs[id].ids == before + found[..n * CHUNK] && buf == found[n * CHUNK..i]
      {
        buf := buf + [found[i]];
        if |buf| >= CHUNK {
          assert before + found[..n * CHUNK] + buf == before + found[..(n + 1) * CHUNK];
          r := AppendUnlessCut(id, epoch, buf, how.Cut? && how.chunk == n, how, now);
          if r != Done {
            return;
          }
          buf, n := [], n + 1;
        }
      }
      assert before + found[..n * CHUNK] + buf == before + found;
      r := AppendUnlessCut(id, epoch, buf, how.Cut? && how.chunk == n, how, now);
    }

    method Cancel(id: Uuid) returns (r: Outcome)
      modifies this
      ensures r == if id in old(jobs) then Done else NotFound
      ensures jobs ==
        if id in old(jobs) && old(jobs)[id].status == Running then old(jobs)[id := old(jobs)[id].(status := Cancelled)]
        else old(jobs)
    {
      if id !in jobs {
        return NotFound;
      }
      if jobs[id].status == Running {
        jobs := jobs[id := jobs[id].(status := Cancelled)];
      }
      return Done;
    }

    method Heartbeat(id: Uuid, epoch: nat, now: int) returns (r: Outcome)
      modifies this
      ensures r == GuardOutcome(old(jobs), id, epoch)
      ensures jobs == if r == Done then old(jobs)[id := old(jobs)[id].(heartbeat := Some(now))] else old(jobs)
    {
      r := GuardWrite(id, epoch);
      if r == Done {
        jobs := jobs[id := jobs[id].(heartbeat := Some(now))];
      }
    }

    method ClearResults(id: Uuid)
      modifies this
      ensures jobs == if id in old(jobs) then old(jobs)[id := old(jobs)[id].(ids := [])] else old(jobs)
    {
      if id in jobs {
        jobs := jobs[id := jobs[id].(ids := [])];
      }
    }

    method Release(id: Uuid, epoch: nat) returns (r: Outcome)
      modifies this
      ensures r == GuardOutcome(old(jobs), id, epoch)
      ensures jobs == if r == Done then old(jobs)[id := old(jobs)[id].(released := true)] else old(jobs)
    {
      r := GuardWrite(id, epoch);
      if r == Done {
        jobs := jobs[id := jobs[id].(released := true)];
      }
    }

    /** The claimable jobs, oldest first. */
    method Candidates(now: int, staleAfter: int) returns (ids: seq<Uuid>)
      ensures Sorted(jobs, ids)
      ensures forall id :: id in ids <==> id in jobs && Claimable(jobs[id], now, staleAfter)
    {
      ids := [];
      var rest := jobs.Keys;
      while rest != {}
        invariant rest <= jobs.Keys && Sorted(jobs, ids)
        invariant forall id :: id in ids <==> id in jobs && id !in rest && Claimable(jobs[id], now, staleAfter)
        decreases rest
      {
        var id := AnyOf(rest);
        rest := rest - {id};
        if Claimable(jobs[id], now, staleAfter) {
          ids := Insert(jobs, ids, id);
        }
      }
    }

    /** A sweep claims the oldest claimable jobs, at most `limit` of them, and
        leaves every other job alone. */
    method ClaimStale(now: int, staleAfter: int, limit: int) returns (r: Outcome, claimed: seq<Uuid>)
      modifies this
      ensures r == BadLimit <==> limit < 1
      ensures r == BadLimit ==> jobs == old(jobs) && claimed == []
      ensures jobs.Keys == old(jobs).Keys && Sorted(old(jobs), claimed)
      ensures limit >= 1 ==>
        && |claimed| <= limit
        && (forall id :: id in claimed ==> id in old(jobs) && Claimable(old(jobs)[id], now, staleAfter))
        && (forall id :: id in old(jobs) && Claimable(old(jobs)[id], now, staleAfter) && id !in claimed ==>
              |claimed| == limit && forall c :: c in claimed ==> Older(old(jobs), c, id))
      ensures forall id :: id in jobs ==>
                jobs[id] == if id in claimed then Taken(old(jobs)[id], now) else old(jobs)[id]
    {
      claimed := [];
      if limit < 1 {
        return BadLimit, [];
      }
      var ids := Candidates(now, staleAfter);
      claimed := ids;
      if |claimed| > limit {
        claimed := claimed[..limit];
        forall id, c | id in ids && id !in claimed && c in claimed ensures Older(old(jobs), c, id) {
          FrontIsOldest(jobs, ids, limit, c, id);
        }
      }
      TakeAll(claimed, now);
      r := Done;
    }

    method TakeAll(claimed: seq<Uuid>, now: int)
      requires Sorted(jobs, claimed)
      modifies this
      ensures jobs.Keys == old(jobs).Keys
      ensures forall id :: id in jobs ==>
                jobs[id] == if id in claimed then Taken(old(jobs)[id], now) else old(jobs)[id]
    {
      for i := 0 to |claimed|
        invariant jobs.Keys == old(jobs).Keys
        invariant forall id :: id in jobs ==>
                    jobs[id] == if id in claimed[..i] then Taken(old(jobs)[id], now) else old(jobs)[id]
      {
        var id := claimed[i];
        assert id !in claimed[..i];
        var job := jobs[id];
        job := job.(epoch := job.epoch + 1);
        if !job.released {
          job := job.(staleClaims := job.staleClaims + 1);
        }
        jobs := jobs[id := job.(released := false, heartbeat := Some(now))];
        assert claimed[..i + 1] == claimed[..i] + [id];
      }
      assert claimed[..|claimed|] == claimed;
    }
  }
}
