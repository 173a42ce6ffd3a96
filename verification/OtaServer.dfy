/** The update service's handlers, each run without interruption. */
module OtaServer {
  import opened Prelude
  import opened JobTable
  import opened JobStore
  import opened JobWalk
  import opened Dispatch
  import opened OtaProtocol

  class OtaServer {
    const store: SqliteJobStore
    const dispatcher: Dispatcher

    constructor (store: SqliteJobStore, dispatcher: Dispatcher)
      ensures this.store == store && this.dispatcher == dispatcher
    {
      this.store, this.dispatcher := store, dispatcher;
    }

    /** Job first, command second: a device without subscribers keeps the job and gets an error. */
    method DispatchUpdate(id: string, device: string, version: string, now: int) returns (r: Result<Job, JobError>)
      modifies store, dispatcher
      ensures var (created, jobs) := CreateJob(old(store.jobs), id, device, version, now);
              && store.jobs == jobs
              && (created.Failure? ==> r == created && dispatcher.Contents() == old(dispatcher.Contents()))
              && (created.Success? ==>
                    var (sent, hub) := DispatchTo(old(dispatcher.Contents()), device, id);
                    && dispatcher.Contents() == hub
                    && r == (if sent.Success? then created else Failure(sent.error)))
      ensures old(OneActive(store.jobs)) ==> OneActive(store.jobs)
      ensures var busy := exists i :: i in old(store.jobs) && old(store.jobs)[i].device == device &&
                            (old(store.jobs)[i].status == Pending || old(store.jobs)[i].status == InProgress);
              var job := Job(device, version, Pending, None, now);
              var heard := device in old(dispatcher.channels) &&
                           exists i :: 0 <= i < |old(dispatcher.rx)| &&
                             old(dispatcher.rx)[i].open && old(dispatcher.rx)[i].device == device;
              && r == (if busy then Failure(AlreadyPending) else if id in old(store.jobs) then Failure(Db)
                       else if heard then Success(job) else Failure(NoActiveSubscribers(device)))
              && store.jobs == (if busy || id in old(store.jobs) then old(store.jobs) else old(store.jobs)[id := job])
              && |dispatcher.rx| == |old(dispatcher.rx)|
              && forall i :: 0 <= i < |dispatcher.rx| ==>
                   var rx := old(dispatcher.rx)[i];
                   if r.Success? && rx.open && rx.device == device
                   then dispatcher.rx[i].queue == (if |rx.queue| < 8 then rx.queue else rx.queue[1..]) + [id]
                   else dispatcher.rx[i] == rx
      ensures r == Failure(NoActiveSubscribers(device)) ==> ActiveIds(store.jobs, device) == {id}
    {
      var created := store.Create(id, device, version, now);
      if created.Failure? {
        return created;
      }
      CountPositive(dispatcher.rx, device);
      var sent := dispatcher.Send(device, id);
      if sent.Failure? {
        return Failure(sent.error);
      }
      return created;
    }

    /** No guard: any known job takes the new status, whatever it had. */
    method AckUpdate(id: string, success: bool, message: string) returns (r: Result<(), JobError>)
      modifies store
      ensures id !in old(store.jobs) ==> r == Failure(NotFound(id)) && store.jobs == old(store.jobs)
      ensures id in old(store.jobs) ==>
                r.Success? && store.jobs == old(store.jobs)[id := old(store.jobs)[id].(
                  status := if success then Completed else Failed,
                  error := if message == "" then None else Some(message))]
    {
      var error := if message == "" then None else Some(message);
      r := store.SetStatus(id, Acked(success), error);
    }

    method CheckUpdate(device: string) returns (r: Option<string>)
      ensures IsOldestActive(store.jobs, device, r)
      ensures forall i :: i in store.jobs && store.jobs[i].device == device
                          && (store.jobs[i].status == Pending || store.jobs[i].status == InProgress) ==>
                r.Some? && r.value in store.jobs && store.jobs[r.value].createdAt <= store.jobs[i].createdAt
      ensures r.Some? ==>
                && r.value in store.jobs && store.jobs[r.value].device == device
                && (store.jobs[r.value].status == Pending || store.jobs[r.value].status == InProgress)
    {
      r := store.GetPendingForDevice(device);
    }

    method WatchUpdates(device: string) returns (rx: nat)
      modifies dispatcher
      ensures dispatcher.Contents() == Subscribe(old(dispatcher.Contents()), device) && rx == |old(dispatcher.rx)|
      ensures dispatcher.rx == old(dispatcher.rx) + [Receiver(device, [], 0, [], true)]
    {
      rx := dispatcher.SubscribeDevice(device);
    }

    method ListUpdateJobs(device: string, limit: int, cursor: Option<int>)
      returns (rows: seq<string>, next: Option<int>)
      ensures IsPage(store.jobs, device, if limit <= 0 then 20 else limit, cursor, rows, next)
      ensures forall i :: 0 <= i < |rows| ==>
                && rows[i] in store.jobs && store.jobs[rows[i]].device == device
                && (cursor.Some? ==> store.jobs[rows[i]].createdAt < cursor.value)
      ensures forall i, j :: 0 <= i < j < |rows| ==>
                rows[i] in store.jobs && rows[j] in store.jobs && rows[i] != rows[j]
                && store.jobs[rows[i]].createdAt >= store.jobs[rows[j]].createdAt
      ensures forall id ::
                && id in store.jobs && store.jobs[id].device == device
                && (cursor.Some? ==> store.jobs[id].createdAt < cursor.value) ==>
                  id in rows || (next.Some? && store.jobs[id].createdAt <= next.value)
      ensures var size := if limit <= 0 then 20 else limit;
              && |rows| <= size
              && (next.Some? ==>
                    && |rows| == size && rows[size - 1] in store.jobs
                    && next.value == store.jobs[rows[size - 1]].createdAt)
    {
      rows, next := store.ListForDevice(device, if limit <= 0 then 20 else limit, cursor);
    }
  }

  /** The protocol's Create and Send, back to back, are one uninterrupted DispatchUpdate. */
  lemma DispatchIsCreateThenSend(s: Ota, id: string, device: string, version: string, now: int)
    requires id !in s.pending
    ensures var s' := Next(Next(s, Create(id, device, version, now)), Send(id));
            var (created, jobs) := CreateJob(s.jobs, id, device, version, now);
            && s'.jobs == jobs && s'.pending == s.pending
            && s'.hub == (if created.Success? then DispatchTo(s.hub, device, id).1 else s.hub)
  {
  }
}
