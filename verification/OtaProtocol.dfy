/**
 * Over-the-air updates as a transition system: job store, per-device channels, and one agent session per
 * device that receives, applies and acknowledges. Handlers interleave between the job insert and the send;
 * handlers and connections drop, acknowledgements get lost, and the service restarts.
 */
module OtaProtocol {
  import opened Prelude
  import opened JobTable
  import opened Dispatch

  /** Where the agent's update loop is; `rx` is the subscription its stream reads. */
  datatype Pc =
    | Off
    | Watching(rx: nat)
    | Applying(rx: nat, job: string)
    | Applied(rx: nat, job: string, ok: bool)
    | Acking(rx: nat, ack: nat)

  datatype AckState = InFlight | Done | Dropped

  datatype Ack = Ack(job: string, ok: bool, state: AckState)

  /** One completed application of a job and whether it succeeded. */
  datatype Application = Application(job: string, ok: bool)

  /** `pending`: jobs whose handler has not reached the send; `started`, `finished`: every application so far. */
  datatype Ota = Ota(jobs: Jobs, pending: set<string>, hub: Hub, agents: map<string, Pc>, acks: seq<Ack>,
                     started: seq<string>, finished: seq<Application>)

  const START := Ota(map[], {}, Hub({}, []), map[], [], [], [])

  datatype Step =
    | Create(id: string, device: string, version: string, now: int)
    | Send(id: string)
    | DropDispatch(id: string)
    | Connect(device: string)
    | Pump(rx: nat)
    | Receive(device: string)
    | Finish(device: string, ok: bool)
    | SendAck(device: string)
    | ProcessAck(ack: nat)
    | LoseAck(ack: nat)
    | GetReply(device: string)
    | Disconnect(device: string)
    | DropReceiver(rx: nat)
    | Restart
    | ForeignAck(id: string, ok: bool)

  function AgentAt(s: Ota, device: string): Pc {
    if device in s.agents then s.agents[device] else Off
  }

  function SetAgent(s: Ota, device: string, pc: Pc): Ota {
    s.(agents := s.agents[device := pc])
  }

  function SetRx(s: Ota, r: nat, receiver: Receiver): Ota
    requires r < |s.hub.rx|
  {
    s.(hub := s.hub.(rx := s.hub.rx[r := receiver]))
  }

  /** A receiver dropped by the service: unread commands go, those already on the stream may still arrive. */
  function Close(r: Receiver): Receiver {
    r.(queue := [], open := false)
  }

  function DoCreate(s: Ota, id: string, device: string, version: string, now: int): Ota {
    var (r, jobs) := CreateJob(s.jobs, id, device, version, now);
    if r.Success? then s.(jobs := jobs, pending := s.pending + {id}) else s
  }

  function DoSend(s: Ota, id: string): Ota {
    if id in s.pending && id in s.jobs then
      s.(pending := s.pending - {id}, hub := DispatchTo(s.hub, s.jobs[id].device, id).1)
    else s
  }

  /** A lag notice is the first thing a lagged receiver yields; the stream filters it out. */
  function DoPump(s: Ota, r: nat): Ota {
    if r < |s.hub.rx| && s.hub.rx[r].missed > 0 then SetRx(s, r, s.hub.rx[r].(missed := 0))
    else if r < |s.hub.rx| && s.hub.rx[r].open && s.hub.rx[r].queue != [] then
      SetRx(s, r, s.hub.rx[r].(queue := s.hub.rx[r].queue[1..], wire := s.hub.rx[r].wire + [s.hub.rx[r].queue[0]]))
    else s
  }

  function DoReceive(s: Ota, device: string): Ota {
    var pc := AgentAt(s, device);
    if pc.Watching? && pc.rx < |s.hub.rx| && s.hub.rx[pc.rx].wire != [] then
      var receiver := s.hub.rx[pc.rx];
      var job := receiver.wire[0];
      SetAgent(SetRx(s, pc.rx, receiver.(wire := receiver.wire[1..])), device, Applying(pc.rx, job))
      .(started := s.started + [job])
    else s
  }

  function DoAck(s: Ota, i: nat): Ota {
    if i < |s.acks| && s.acks[i].state.InFlight? then
      s.(jobs := UpdateStatus(s.jobs, s.acks[i].job, Acked(s.acks[i].ok), None).1,
         acks := s.acks[i := s.acks[i].(state := Done)])
    else s
  }

  function Next(s: Ota, step: Step): Ota {
    match step
    case Create(id, device, version, now) => DoCreate(s, id, device, version, now)
    case Send(id) => DoSend(s, id)
    case DropDispatch(id) => s.(pending := s.pending - {id})
    case Connect(device) =>
      if AgentAt(s, device).Off?
      then SetAgent(s.(hub := Subscribe(s.hub, device)), device, Watching(|s.hub.rx|)) else s
    case Pump(r) => DoPump(s, r)
    case Receive(device) => DoReceive(s, device)
    case Finish(device, ok) =>
      var pc := AgentAt(s, device);
      if pc.Applying?
      then SetAgent(s, device, Applied(pc.rx, pc.job, ok)).(finished := s.finished + [Application(pc.job, ok)])
      else s
    case SendAck(device) =>
      var pc := AgentAt(s, device);
      if pc.Applied?
      then SetAgent(s, device, Acking(pc.rx, |s.acks|)).(acks := s.acks + [Ack(pc.job, pc.ok, InFlight)])
      else s
    case ProcessAck(i) => DoAck(s, i)
    case LoseAck(i) =>
      if i < |s.acks| && s.acks[i].state.InFlight? then s.(acks := s.acks[i := s.acks[i].(state := Dropped)]) else s
    case GetReply(device) =>
      var pc := AgentAt(s, device);
      if pc.Acking? && pc.ack < |s.acks| && s.acks[pc.ack].state.Done? then SetAgent(s, device, Watching(pc.rx)) else s
    case Disconnect(device) => SetAgent(s, device, Off)
    case DropReceiver(r) => if r < |s.hub.rx| then SetRx(s, r, Close(s.hub.rx[r])) else s
    case Restart =>
      s.(pending := {},
         hub := Hub({}, seq(|s.hub.rx|, i requires 0 <= i < |s.hub.rx| => Close(s.hub.rx[i]))),
         acks := seq(|s.acks|, i requires 0 <= i < |s.acks| =>
                   if s.acks[i].state.InFlight? then s.acks[i].(state := Dropped) else s.acks[i]))
    case ForeignAck(id, ok) => s.(jobs := UpdateStatus(s.jobs, id, Acked(ok), None).1)
  }

  function Run(s: Ota, steps: seq<Step>): Ota
    decreases |steps|
  {
    if steps == [] then s else Run(Next(s, steps[0]), steps[1..])
  }

  lemma RunOfTwo(s: Ota, step1: Step, step2: Step)
    ensures Run(s, [step1, step2]) == Next(Next(s, step1), step2)
  {
    assert [step1, step2][1..] == [step2] && [step2][1..] == [];
    assert Run(Next(s, step1), [step2]) == Run(Next(Next(s, step1), step2), []);
  }

  lemma {:induction false} RunConcat(s: Ota, steps: seq<Step>, more: seq<Step>)
    ensures Run(s, steps + more) == Run(Run(s, steps), more)
    decreases |steps|
  {
    if steps == [] {
      assert steps + more == more;
    } else {
      assert (steps + more)[1..] == steps[1..] + more;
      RunConcat(Next(s, steps[0]), steps[1..], more);
    }
  }

  // ── The job table, whoever acknowledges ─────────────────────────────────────

  ghost predicate TableInv(t: Jobs) {
    && OneActive(t)
    && (forall id :: id in t ==> !t[id].status.InProgress?)
  }

  /** Jobs stay, with device, version and creation time, and one that is active afterwards is as it was. */
  ghost predicate JobsKept(t: Jobs, t': Jobs) {
    forall id :: id in t ==>
      && id in t' && t'[id].device == t[id].device
      && t'[id].version == t[id].version && t'[id].createdAt == t[id].createdAt
      && (Active(t', id) ==> t'[id] == t[id])
  }

  lemma CreateKeepsTable(t: Jobs, id: string, device: string, version: string, now: int)
    requires TableInv(t)
    ensures TableInv(CreateJob(t, id, device, version, now).1) && JobsKept(t, CreateJob(t, id, device, version, now).1)
  {
    assert forall i :: Active(t, i) && t[i].device == device ==> i in ActiveIds(t, device);
  }

  lemma AckKeepsTable(t: Jobs, id: string, ok: bool)
    requires TableInv(t)
    ensures TableInv(UpdateStatus(t, id, Acked(ok), None).1) && JobsKept(t, UpdateStatus(t, id, Acked(ok), None).1)
  {
  }

  /** The job table after a step. */
  function JobsAfter(s: Ota, step: Step): Jobs {
    match step
    case Create(id, device, version, now) => CreateJob(s.jobs, id, device, version, now).1
    case ProcessAck(i) =>
      if i < |s.acks| && s.acks[i].state.InFlight? then UpdateStatus(s.jobs, s.acks[i].job, Acked(s.acks[i].ok), None).1
      else s.jobs
    case ForeignAck(id, ok) => UpdateStatus(s.jobs, id, Acked(ok), None).1
    case _ => s.jobs
  }

  lemma JobsOfStep(s: Ota, step: Step)
    ensures Next(s, step).jobs == JobsAfter(s, step)
  {
  }

  lemma StepKeepsTable(s: Ota, step: Step)
    requires TableInv(s.jobs)
    ensures TableInv(Next(s, step).jobs) && JobsKept(s.jobs, Next(s, step).jobs)
  {
    JobsOfStep(s, step);
    match step
    case Create(id, device, version, now) => CreateKeepsTable(s.jobs, id, device, version, now);
    case ProcessAck(i) =>
      if i < |s.acks| {
        AckKeepsTable(s.jobs, s.acks[i].job, s.acks[i].ok);
      }
    case ForeignAck(id, ok) => AckKeepsTable(s.jobs, id, ok);
    case _ =>
  }
}
