/** The update_jobs table and the calls on it, each atomic under the connection lock. */
module JobTable {
  import opened Prelude

  datatype JobStatus = Pending | InProgress | Completed | Failed

  datatype JobError = NotFound(id: string) | AlreadyPending | NoActiveSubscribers(device: string) | Db

  datatype Job = Job(device: string, version: string, status: JobStatus, error: Option<string>, createdAt: int)

  type Jobs = map<string, Job>

  predicate IsActive(j: Job) {
    j.status.Pending? || j.status.InProgress?
  }

  predicate Active(t: Jobs, id: string) {
    id in t && IsActive(t[id])
  }

  function ActiveIds(t: Jobs, device: string): set<string> {
    set id | id in t && t[id].device == device && IsActive(t[id])
  }

  function CreateJob(t: Jobs, id: string, device: string, version: string, now: int): (Result<Job, JobError>, Jobs) {
    if |ActiveIds(t, device)| > 0 then (Failure(AlreadyPending), t)
    else if id in t then (Failure(Db), t)
    else
      var j := Job(device, version, Pending, None, now);
      (Success(j), t[id := j])
  }

  function UpdateStatus(t: Jobs, id: string, status: JobStatus, error: Option<string>): (Result<(), JobError>, Jobs) {
    if id !in t then (Failure(NotFound(id)), t)
    else (Success(()), t[id := t[id].(status := status, error := error)])
  }

  /** What ack_update writes. */
  function Acked(success: bool): JobStatus {
    if success then Completed else Failed
  }

  ghost predicate OneActive(t: Jobs) {
    forall i, j :: Active(t, i) && Active(t, j) && t[i].device == t[j].device ==> i == j
  }

  /** What COUNT(*) > 0 asks. */
  lemma BusyIffActive(t: Jobs, device: string)
    ensures |ActiveIds(t, device)| > 0 <==>
              exists i :: i in t && t[i].device == device && (t[i].status == Pending || t[i].status == InProgress)
  {
    if |ActiveIds(t, device)| > 0 {
      var i :| i in ActiveIds(t, device);
    }
    forall i | i in t && t[i].device == device && (t[i].status == Pending || t[i].status == InProgress)
      ensures ActiveIds(t, device) != {}
    {
      assert i in ActiveIds(t, device);
    }
  }

  /** The oldest active job of the device; ties may go either way. */
  ghost predicate IsOldestActive(t: Jobs, device: string, r: Option<string>) {
    match r
    case None => ActiveIds(t, device) == {}
    case Some(id) => id in ActiveIds(t, device) && forall i :: i in ActiveIds(t, device) ==>
        t[id].createdAt <= t[i].createdAt
  }

  lemma OldestInFields(t: Jobs, device: string, r: Option<string>)
    requires IsOldestActive(t, device, r)
    ensures forall i :: i in t && t[i].device == device && (t[i].status == Pending || t[i].status == InProgress) ==>
              r.Some? && r.value in t && t[r.value].createdAt <= t[i].createdAt
    ensures r.Some? ==>
              && r.value in t && t[r.value].device == device
              && (t[r.value].status == Pending || t[r.value].status == InProgress)
  {
    forall i | i in t && t[i].device == device && (t[i].status == Pending || t[i].status == InProgress)
      ensures i in ActiveIds(t, device)
    {
    }
  }
}
