/** What the update service promises over whole runs, and which jobs can still reach a verdict. */
module OtaResults {
  import opened Prelude
  import opened JobTable
  import opened Dispatch
  import opened OtaProtocol
  import opened OtaDelivery

  // ── Whoever acknowledges ────────────────────────────────────────────────────

  /**
   * In every run, with any acknowledgements from anyone, a device has at most one active job, in_progress
   * is never stored, no job goes away or changes device, and one that has left the active statuses never
   * returns to them.
   */
  lemma {:induction false} OneActiveJobPerDevice(s: Ota, steps: seq<Step>)
    requires TableInv(s.jobs)
    ensures TableInv(Run(s, steps).jobs) && JobsKept(s.jobs, Run(s, steps).jobs)
    decreases |steps|
  {
    if steps != [] {
      StepKeepsTable(s, steps[0]);
      OneActiveJobPerDevice(Next(s, steps[0]), steps[1..]);
    }
  }

  /** The acknowledgement of `id`, the only step that ends its activity. */
  predicate Acknowledges(s: Ota, step: Step, id: string) {
    || (step.ForeignAck? && step.id == id)
    || (step.ProcessAck? && step.ack < |s.acks| && s.acks[step.ack].state.InFlight? && s.acks[step.ack].job == id)
  }

  /** No step of the run, taken where the run takes it, acknowledges `id`. */
  predicate NeverAcked(s: Ota, steps: seq<Step>, id: string)
    decreases |steps|
  {
    steps == [] || (!Acknowledges(s, steps[0], id) && NeverAcked(Next(s, steps[0]), steps[1..], id))
  }

  lemma {:induction false} UnackedIsOffered(s: Ota, steps: seq<Step>, id: string)
    requires TableInv(s.jobs) && Active(s.jobs, id) && NeverAcked(s, steps, id)
    ensures Offered(Run(s, steps).jobs, s.jobs[id].device, id)
    decreases |steps|
  {
    if steps == [] {
      TheActiveJob(s.jobs, id);
    } else {
      StepKeepsTable(s, steps[0]);
      UnackedStaysActive(s, steps[0], id);
      UnackedIsOffered(Next(s, steps[0]), steps[1..], id);
    }
  }

  lemma UnackedStaysActive(s: Ota, step: Step, id: string)
    requires Active(s.jobs, id) && !Acknowledges(s, step, id)
    ensures Active(Next(s, step).jobs, id) && Next(s, step).jobs[id].device == s.jobs[id].device
  {
    JobsOfStep(s, step);
  }

  /** The only answer of check_update for the device, and in the way of every new job. */
  ghost predicate Offered(t: Jobs, device: string, id: string) {
    && Active(t, id)
    && (forall r :: IsOldestActive(t, device, r) <==> r == Some(id))
    && (forall id', version, now :: CreateJob(t, id', device, version, now).0 == Failure(AlreadyPending))
  }

  /**
   * In every run, whoever acknowledges: a job is created, others act, and its send finds nobody listening.
   * From then on, until someone acknowledges that very job, check_update answers with it and nothing else,
   * and no second job of the device can be created. The same holds when the send succeeds or is dropped.
   */
  lemma UndeliveredJobIsOffered(before: seq<Step>, between: seq<Step>, after: seq<Step>,
                                id: string, device: string, version: string, now: int)
    requires var s := Run(START, before);
             var s1 := Next(s, Create(id, device, version, now));
             && CreateJob(s.jobs, id, device, version, now).0.Success?
             && NeverAcked(s1, between, id) && NeverAcked(Next(Run(s1, between), Send(id)), after, id)
    ensures var s1 := Next(Run(START, before), Create(id, device, version, now));
            var s2 := Run(s1, between);
            var s3 := Next(s2, Send(id));
            && (id in s2.pending && Count(s2.hub.rx, device) == 0 ==>
                  DispatchTo(s2.hub, device, id).0 == Failure(NoActiveSubscribers(device)) && s3.hub == s2.hub)
            && Offered(s3.jobs, device, id) && Offered(Run(s3, after).jobs, device, id)
  {
    var s := Run(START, before);
    var s1 := Next(s, Create(id, device, version, now));
    var s2 := Run(s1, between);
    var s3 := Next(s2, Send(id));
    OneActiveJobPerDevice(START, before);
    StepKeepsTable(s, Create(id, device, version, now));
    UnackedIsOffered(s1, between, id);
    OneActiveJobPerDevice(s1, between);
    StepKeepsTable(s2, Send(id));
    UnackedIsOffered(s2, [Send(id)], id);
    assert Run(s2, [Send(id)]) == s3;
    UnackedIsOffered(s3, after, id);
  }

  // ── Acknowledgements from the agents only ───────────────────────────────────

  /**
   * Whatever an agent has unread, in hand, or acknowledged without an answer is the device's active job,
   * or a job acknowledged for good. So a live receiver holds at most one command, the channel of eight
   * never lags, and discarding lag notices drops nothing.
   */
  lemma NothingLagsOrIsDropped(steps: seq<Step>, device: string)
    requires AgentsOnly(steps)
    requires !AgentAt(Run(START, steps), device).Off?
    ensures var s := Run(START, steps); var pc := AgentAt(s, device);
            && pc.rx < |s.hub.rx| && s.hub.rx[pc.rx].missed == 0
            && |s.hub.rx[pc.rx].queue| + |s.hub.rx[pc.rx].wire| <= 1 < CHANNEL_CAPACITY
            && (forall job :: job in Held(s.hub.rx[pc.rx]) ==> ActiveIds(s.jobs, device) == {job})
            && (pc.Applying? || pc.Applied? ==> ActiveIds(s.jobs, device) == {pc.job})
            && (forall i :: 0 <= i < |s.acks| && s.acks[i].state.InFlight? ==>
                  s.acks[i].job in s.jobs && ActiveIds(s.jobs, s.jobs[s.acks[i].job].device) == {s.acks[i].job})
  {
    RunKeepsDelivery(START, steps);
    var s := Run(START, steps);
    assert SessionOk(s, device);
    forall job | job in Held(s.hub.rx[AgentAt(s, device).rx]) ensures ActiveIds(s.jobs, device) == {job} {
      TheActiveJob(s.jobs, job);
    }
    if AgentAt(s, device).Applying? || AgentAt(s, device).Applied? {
      TheActiveJob(s.jobs, AgentAt(s, device).job);
    }
    forall i | 0 <= i < |s.acks| && s.acks[i].state.InFlight?
      ensures s.acks[i].job in s.jobs && ActiveIds(s.jobs, s.jobs[s.acks[i].job].device) == {s.acks[i].job}
    {
      assert AckOk(s, i);
      TheActiveJob(s.jobs, s.acks[i].job);
    }
  }

  lemma TheActiveJob(t: Jobs, job: string)
    requires TableInv(t) && Active(t, job)
    ensures ActiveIds(t, t[job].device) == {job}
  {
    assert job in ActiveIds(t, t[job].device);
  }

  /** Each job is taken up at most once and finished at most once, through any reconnects and lost replies. */
  lemma AppliedAtMostOnce(steps: seq<Step>, id: string)
    requires AgentsOnly(steps)
    ensures var s := Run(START, steps);
            && multiset(s.started)[id] <= 1
            && (forall i, j :: 0 <= i < j < |s.finished| ==> s.finished[i].job != s.finished[j].job)
  {
    RunKeepsDelivery(START, steps);
    DistinctCount(Run(START, steps).started, id);
  }

  lemma {:induction false} DistinctCount(xs: seq<string>, x: string)
    requires forall i, j :: 0 <= i < j < |xs| ==> xs[i] != xs[j]
    ensures multiset(xs)[x] <= 1
  {
    if xs != [] {
      assert xs == [xs[0]] + xs[1..];
      DistinctCount(xs[1..], x);
      assert xs[0] !in xs[1..];
    }
  }

  /** A job is completed (failed) only if it was applied exactly once and that application succeeded (failed). */
  lemma VerdictTellsTheApplication(steps: seq<Step>, id: string)
    requires AgentsOnly(steps)
    requires id in Run(START, steps).jobs && !Active(Run(START, steps).jobs, id)
    ensures var s := Run(START, steps);
            exists k :: 0 <= k < |s.finished| && s.finished[k].job == id
                     && s.jobs[id].status == Acked(s.finished[k].ok)
                     && (forall i :: 0 <= i < |s.finished| && s.finished[i].job == id ==> i == k)
  {
    RunKeepsDelivery(START, steps);
    var s := Run(START, steps);
    assert JobOk(s, id);
    var i :| 0 <= i < |s.acks| && s.acks[i].job == id && s.acks[i].state.Done?;
    assert AckOk(s, i);
    var k :| 0 <= k < |s.finished| && s.finished[k] == Application(id, s.acks[i].ok);
  }

  /** The outcome that a step writes for `id`, if it writes one. */
  function VerdictOf(s: Ota, step: Step, id: string): Option<JobStatus> {
    if !Acknowledges(s, step, id) then None
    else if step.ForeignAck? then Some(Acked(step.ok))
    else Some(Acked(s.acks[step.ack].ok))
  }

  /**
   * The status write has no guard. In every state, a verdict changes in a step exactly when that step is
   * an acknowledgement of the job, from whomever, with the other outcome; it never becomes active again.
   */
  lemma VerdictChangesIffContradicted(s: Ota, step: Step, id: string)
    requires id in s.jobs && !Active(s.jobs, id)
    ensures id in Next(s, step).jobs && !Active(Next(s, step).jobs, id)
    ensures Next(s, step).jobs[id].status != s.jobs[id].status
       <==> VerdictOf(s, step, id).Some? && VerdictOf(s, step, id).value != s.jobs[id].status
  {
    JobsOfStep(s, step);
  }

  /** Agents alone never contradict a verdict: each job is acknowledged for good once. */
  lemma AgentsNeverContradict(s: Ota, step: Step, id: string)
    requires DeliveryInv(s) && !step.ForeignAck? && id in s.jobs && !Active(s.jobs, id)
    ensures VerdictOf(s, step, id).None?
  {
    if step.ProcessAck? && step.ack < |s.acks| {
      assert AckOk(s, step.ack);
    }
  }

  lemma {:induction false} VerdictIsFinal(s: Ota, steps: seq<Step>, id: string)
    requires DeliveryInv(s) && AgentsOnly(steps) && id in s.jobs && !Active(s.jobs, id)
    ensures id in Run(s, steps).jobs && Run(s, steps).jobs[id].status == s.jobs[id].status
    decreases |steps|
  {
    if steps != [] {
      VerdictChangesIffContradicted(s, steps[0], id);
      AgentsNeverContradict(s, steps[0], id);
      StepKeepsDelivery(s, steps[0]);
      VerdictIsFinal(Next(s, steps[0]), steps[1..], id);
    }
  }

  /** The agent of device `d` reads subscription 0, and job `j` of that device has the given status. */
  function Scene(j: string, d: string, status: JobStatus, pending: set<string>, queue: seq<string>, wire: seq<string>,
                 pc: Pc, acks: seq<Ack>, started: seq<string>, finished: seq<Application>): Ota {
    Ota(map[j := Job(d, "", status, None, 0)], pending, Hub({d}, [Receiver(d, queue, 0, wire, true)]), map[d := pc],
        acks, started, finished)
  }

  lemma SceneConnected(j: string, d: string)
    ensures Run(START, [Create(j, d, "", 0), Connect(d)]) == Scene(j, d, Pending, {j}, [], [], Watching(0), [], [], [])
  {
    var s := Next(START, Create(j, d, "", 0));
    assert s == Ota(map[j := Job(d, "", Pending, None, 0)], {j}, Hub({}, []), map[], [], [], []);
    RunOfTwo(START, Create(j, d, "", 0), Connect(d));
  }

  lemma SceneOnTheWire(j: string, d: string)
    ensures Run(Scene(j, d, Pending, {j}, [], [], Watching(0), [], [], []), [Send(j), Pump(0)])
         == Scene(j, d, Pending, {}, [], [j], Watching(0), [], [], [])
  {
    var s := Scene(j, d, Pending, {j}, [], [], Watching(0), [], [], []);
    assert Listens(s.hub.rx[0], d);
    CountPositive(s.hub.rx, d);
    assert [] + [j] == [j] && [j][1..] == [];
    assert SendAll(s.hub.rx, d, j) == [Receiver(d, [j], 0, [], true)];
    assert Next(s, Send(j)) == Scene(j, d, Pending, {}, [j], [], Watching(0), [], [], []);
    RunOfTwo(s, Send(j), Pump(0));
  }

  lemma SceneTaken(j: string, d: string)
    ensures Next(Scene(j, d, Pending, {}, [], [j], Watching(0), [], [], []), Receive(d))
         == Scene(j, d, Pending, {}, [], [], Applying(0, j), [], [j], [])
  {
    assert [] + [j] == [j] && [j][1..] == [];
  }

  lemma SceneAcknowledged(j: string, d: string)
    ensures Run(Scene(j, d, Pending, {}, [], [j], Watching(0), [], [], []), [Receive(d), ForeignAck(j, true)])
         == Scene(j, d, Completed, {}, [], [], Applying(0, j), [], [j], [])
  {
    var s := Scene(j, d, Pending, {}, [], [j], Watching(0), [], [], []);
    SceneTaken(j, d);
    RunOfTwo(s, Receive(d), ForeignAck(j, true));
  }

  lemma SceneFailed(j: string, d: string)
    ensures Run(Scene(j, d, Completed, {}, [], [], Applying(0, j), [], [j], []), [Finish(d, false), SendAck(d)])
         == Scene(j, d, Completed, {}, [], [], Acking(0, 0), [Ack(j, false, InFlight)], [j], [Application(j, false)])
  {
    var s := Scene(j, d, Completed, {}, [], [], Applying(0, j), [], [j], []);
    assert [] + [Application(j, false)] == [Application(j, false)];
    assert Next(s, Finish(d, false)) ==
               Scene(j, d, Completed, {}, [], [], Applied(0, j, false), [], [j], [Application(j, false)]);
    RunOfTwo(s, Finish(d, false), SendAck(d));
  }

  lemma JoinRuns(s: Ota, first: seq<Step>, s1: Ota, second: seq<Step>, s2: Ota) returns (steps: seq<Step>)
    requires Run(s, first) == s1 && Run(s1, second) == s2
    ensures Run(s, steps) == s2
  {
    steps := first + second;
    RunConcat(s, first, second);
  }

  lemma SceneOverwritten(j: string, d: string) returns (steps: seq<Step>)
    ensures Run(START, steps) ==
              Scene(j, d, Completed, {}, [], [], Acking(0, 0), [Ack(j, false, InFlight)], [j], [Application(j, false)])
  {
    var s1 := Scene(j, d, Pending, {j}, [], [], Watching(0), [], [], []);
    var s2 := Scene(j, d, Pending, {}, [], [j], Watching(0), [], [], []);
    var s3 := Scene(j, d, Completed, {}, [], [], Applying(0, j), [], [j], []);
    SceneConnected(j, d);
    SceneOnTheWire(j, d);
    steps := JoinRuns(START, [Create(j, d, "", 0), Connect(d)], s1, [Send(j), Pump(0)], s2);
    SceneAcknowledged(j, d);
    steps := JoinRuns(START, steps, s2, [Receive(d), ForeignAck(j, true)], s3);
    SceneFailed(j, d);
    steps := JoinRuns(START, steps, s3, [Finish(d, false), SendAck(d)],
      Scene(j, d, Completed, {}, [], [], Acking(0, 0), [Ack(j, false, InFlight)], [j], [Application(j, false)]));
  }

  /** One foreign acknowledgement is enough for the agent's own, later one to overwrite a verdict. */
  lemma AgentOverwritesVerdict(j: string, d: string) returns (steps: seq<Step>)
    ensures var s := Run(START, steps);
            && j in s.jobs && s.jobs[j].status == Completed
            && Next(s, ProcessAck(0)).jobs[j].status == Failed
  {
    steps := SceneOverwritten(j, d);
  }
}
