/** The lease protocol is what its parties do to the job store: each event of JobLease,
    performed through the methods of SearchJobs, leaves the job the event says. */
module LeaseStore {
  import opened Json
  import opened Versions
  import opened SearchJobs
  import opened JobLease

  /** A submission creates the job of a fresh lease. */
  method Submit(m: SearchStore, id: Uuid, created: int, cap: nat)
    modifies m
    ensures m.jobs == old(m.jobs)[id := Submitted(cap, created).job]
  {
    m.CreateJob(id, created);
  }

  /** Every event but a claim, as the store call its party makes; events local to a
      node make none. */
  method Perform(m: SearchStore, id: Uuid, l: Lease, ev: Event)
    requires id in m.jobs && m.jobs[id] == l.job && Can(l, ev) && !ev.Claim?
    modifies m
    ensures m.jobs == old(m.jobs)[id := Next(l, ev).job]
  {
    match ev {
      case GiveUp(e) =>
        var r := m.UpdateJobStatus(id, e, Failed, 0);
      case Clear(e) => m.ClearResults(id);
      case HandBack(e) =>
        var r := m.Release(id, e);
      case Reject(e) =>
        var r := m.UpdateJobStatus(id, e, Failed, 0);
      case SaveChunk(e, chunk) =>
        var r := m.GuardAndAppend(id, e, chunk);
      case Finish(e) =>
        var r := m.UpdateJobStatus(id, e, Successful, l.holders[e].saved);
      case Fail(e) =>
        var r := m.UpdateJobStatus(id, e, Failed, 0);
      case Beat(e, now) =>
        var r := m.Heartbeat(id, e, now);
      case Release(e) =>
        var r := m.Release(id, e);
      case Cancel =>
        var r := m.Cancel(id);
      case Enqueue(e) =>
      case Start(e) =>
      case Lose(e) =>
    }
  }

  /** A sweep is a claim event for each job it claims, and no event for the others. */
  method Sweep(m: SearchStore, leases: map<Uuid, Lease>, now: int, staleAfter: int, limit: int)
    returns (claimed: seq<Uuid>)
    requires leases.Keys == m.jobs.Keys && (forall id :: id in m.jobs ==> leases[id].job == m.jobs[id])
    requires limit >= 1
    modifies m
    ensures m.jobs.Keys == leases.Keys && |claimed| <= limit
    ensures forall id :: id in leases ==>
      if id in claimed
      then Can(leases[id], Claim(now, staleAfter)) && m.jobs[id] == Next(leases[id], Claim(now, staleAfter)).job
      else m.jobs[id] == leases[id].job
  {
    var r;
    r, claimed := m.ClaimStale(now, staleAfter, limit);
  }
}
