/** The SQLite job store: each call holds the connection lock. */
module JobStore {
  import opened Prelude
  import opened JobTable
  import opened JobWalk

  /** The engine's part: the newest rows, one after the other. */
  method Fetch(t: Jobs, ids: set<string>, n: nat) returns (rows: seq<string>)
    requires ids <= t.Keys
    ensures Fetched(t, ids, n, rows)
  {
    rows := [];
    var rest := ids;
    while |rows| < n && rest != {}
      invariant |rows| <= n
      invariant forall id :: id in ids <==> id in rest || id in rows
      invariant forall id :: id in rest ==> id !in rows
      invariant Distinct(rows) && Newest(t, rows)
      invariant forall id, i :: id in rest && 0 <= i < |rows| ==> t[id].createdAt <= t[rows[i]].createdAt
      decreases |rest|
    {
      var id := NewestOf(t, rest);
      rows := rows + [id];
      rest := rest - {id};
    }
  }

  method NewestOf(t: Jobs, ids: set<string>) returns (id: string)
    requires ids != {} && ids <= t.Keys
    ensures id in ids && forall x :: x in ids ==> t[x].createdAt <= t[id].createdAt
  {
    id :| id in ids;
    var rest := ids;
    while rest != {}
      invariant rest <= ids && id in ids
      invariant forall x :: x in ids - rest ==> t[x].createdAt <= t[id].createdAt
      decreases |rest|
    {
      var x :| x in rest;
      if t[x].createdAt > t[id].createdAt {
        id := x;
      }
      rest := rest - {x};
    }
  }

  class SqliteJobStore {
    var jobs: Jobs

    constructor ()
      ensures jobs == map[]
    {
      jobs := map[];
    }

    method Create(id: string, device: string, version: string, now: int) returns (r: Result<Job, JobError>)
      modifies this
      ensures (r, jobs) == CreateJob(old(jobs), id, device, version, now)
      ensures old(OneActive(jobs)) ==> OneActive(jobs)
      ensures r.Success? ==> old(ActiveIds(jobs, device) == {}) && ActiveIds(jobs, device) == {id}
      ensures var busy := exists i :: i in old(jobs) && old(jobs)[i].device == device &&
                            (old(jobs)[i].status == Pending || old(jobs)[i].status == InProgress);
              && r == (if busy then Failure(AlreadyPending) else if id in old(jobs) then Failure(Db)
                       else Success(Job(device, version, Pending, None, now)))
              && jobs == (if r.Success? then old(jobs)[id := r.value] else old(jobs))
    {
      BusyIffActive(jobs, device);
      if |ActiveIds(jobs, device)| > 0 {
        return Failure(AlreadyPending);
      }
      if id in jobs {
        return Failure(Db);
      }
      var j := Job(device, version, Pending, None, now);
      assert forall i :: Active(jobs, i) && jobs[i].device == device ==> i in ActiveIds(jobs, device);
      jobs := jobs[id := j];
      return Success(j);
    }

    method SetStatus(id: string, status: JobStatus, error: Option<string>) returns (r: Result<(), JobError>)
      modifies this
      ensures (r, jobs) == UpdateStatus(old(jobs), id, status, error)
      ensures id !in old(jobs) ==> r == Failure(NotFound(id)) && jobs == old(jobs)
      ensures id in old(jobs) ==>
                var job := old(jobs)[id];
                && r == Success(())
                && jobs == old(jobs)[id := Job(job.device, job.version, status, error, job.createdAt)]
    {
      if id !in jobs {
        return Failure(NotFound(id));
      }
      jobs := jobs[id := jobs[id].(status := status, error := error)];
      return Success(());
    }

    method GetPendingForDevice(device: string) returns (r: Option<string>)
      ensures IsOldestActive(jobs, device, r)
      ensures forall i :: i in jobs && jobs[i].device == device
                          && (jobs[i].status == Pending || jobs[i].status == InProgress) ==>
                r.Some? && r.value in jobs && jobs[r.value].createdAt <= jobs[i].createdAt
      ensures r.Some? ==>
                && r.value in jobs && jobs[r.value].device == device
                && (jobs[r.value].status == Pending || jobs[r.value].status == InProgress)
    {
      r := None;
      var rest := ActiveIds(jobs, device);
      while rest != {}
        invariant rest <= ActiveIds(jobs, device)
        invariant r.None? ==> rest == ActiveIds(jobs, device)
        invariant r.Some? ==> r.value in ActiveIds(jobs, device)
        invariant r.Some? ==> forall i :: i in ActiveIds(jobs, device) - rest ==>
                      jobs[r.value].createdAt <= jobs[i].createdAt
        decreases |rest|
      {
        var id :| id in rest;
        if r.None? || jobs[id].createdAt < jobs[r.value].createdAt {
          r := Some(id);
        }
        rest := rest - {id};
      }
      OldestInFields(jobs, device, r);
    }

    /**
     * One page, newest first, and the timestamp to go on from if there is more. The handler never asks for
     * a page below 1; asked all the same, 0 and -1 give nothing and anything lower gives every match.
     */
    method ListForDevice(device: string, limit: int, cursor: Option<int>) returns (rows: seq<string>, next: Option<int>)
      ensures limit >= 1 ==> IsPage(jobs, device, limit, cursor, rows, next)
      ensures forall i :: 0 <= i < |rows| ==>
                && rows[i] in jobs && jobs[rows[i]].device == device
                && (cursor.Some? ==> jobs[rows[i]].createdAt < cursor.value)
      ensures forall i, j :: 0 <= i < j < |rows| ==>
                rows[i] in jobs && rows[j] in jobs && rows[i] != rows[j]
                && jobs[rows[i]].createdAt >= jobs[rows[j]].createdAt
      ensures limit >= 1 ==> forall id ::
                && id in jobs && jobs[id].device == device
                && (cursor.Some? ==> jobs[id].createdAt < cursor.value) ==>
                  id in rows || (next.Some? && jobs[id].createdAt <= next.value)
      ensures limit >= 1 ==>
                && |rows| <= limit
                && (next.Some? ==>
                      |rows| == limit && rows[limit - 1] in jobs && next.value == jobs[rows[limit - 1]].createdAt)
      ensures next.Some? ==> exists id ::
                && id in jobs && jobs[id].device == device && id !in rows
                && (cursor.Some? ==> jobs[id].createdAt < cursor.value)
      ensures limit <= 0 ==> next.None?
      ensures -1 <= limit <= 0 ==> rows == []
      ensures limit < -1 ==> Fetched(jobs, Matching(jobs, device, cursor), |Matching(jobs, device, cursor)|, rows)
    {
      var matching := Matching(jobs, device, cursor);
      var fetch := if limit + 1 < 0 then |matching| else limit + 1;
      var fetched := Fetch(jobs, matching, fetch);
      next := if |fetched| > limit >= 1 then Some(jobs[fetched[limit - 1]].createdAt) else None;
      rows := if 0 <= limit < |fetched| then fetched[..limit] else fetched;
      assert limit >= 1 ==> FromFetched(jobs, limit, fetched, rows, next);
      forall i | 0 <= i < |rows| ensures rows[i] in matching {
        assert rows[i] == fetched[i] && fetched[i] in fetched;
      }
      if |fetched| > limit >= 1 {
        PageFacts(jobs, device, limit, cursor, rows, next);
        assert fetched[limit] in fetched && forall i :: 0 <= i < limit ==> fetched[i] != fetched[limit];
      }
    }
  }
}
