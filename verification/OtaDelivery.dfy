/**
 * With acknowledgements coming from the devices' own agents only: delivery never lags, each job is applied
 * at most once, and a terminal status tells what that one application did.
 */
module OtaDelivery {
  import opened JobTable
  import opened Dispatch
  import opened OtaProtocol

  predicate AgentsOnly(steps: seq<Step>) {
    forall st :: st in steps ==> !st.ForeignAck?
  }

  /** A job of `device` that is sent, active and not yet taken by the agent. */
  predicate Waiting(s: Ota, device: string, job: string) {
    Active(s.jobs, job) && s.jobs[job].device == device && job !in s.pending && job !in s.started
  }

  /** A job of `device` that the agent has taken and whose acknowledgement is not yet sent. */
  ghost predicate InHand(s: Ota, device: string, job: string) {
    && Active(s.jobs, job) && s.jobs[job].device == device && job in s.started
    && forall i :: 0 <= i < |s.acks| ==> s.acks[i].job != job
  }

  function Held(r: Receiver): seq<string> {
    r.queue + r.wire
  }

  ghost predicate LiveRxOk(s: Ota, device: string, r: nat) {
    && r < |s.hub.rx| && s.hub.rx[r].device == device
    && s.hub.rx[r].missed == 0 && |Held(s.hub.rx[r])| <= 1
    && (s.hub.rx[r].open || s.hub.rx[r].queue == [])
    && (forall job :: job in Held(s.hub.rx[r]) ==> Waiting(s, device, job))
  }

  ghost predicate SessionOk(s: Ota, device: string) {
    match AgentAt(s, device)
    case Off => true
    case Watching(r) => LiveRxOk(s, device, r)
    case Applying(r, job) =>
      LiveRxOk(s, device, r) && InHand(s, device, job) && (forall f :: f in s.finished ==> f.job != job)
    case Applied(r, job, ok) => LiveRxOk(s, device, r) && InHand(s, device, job) && Application(job, ok) in s.finished
    case Acking(r, i) =>
      LiveRxOk(s, device, r) && i < |s.acks| && s.acks[i].job in s.jobs && s.jobs[s.acks[i].job].device == device
  }

  ghost predicate AckOk(s: Ota, i: nat)
    requires i < |s.acks|
  {
    var a := s.acks[i];
    && Application(a.job, a.ok) in s.finished
    && (if a.state.Done? then a.job in s.jobs && s.jobs[a.job].status == Acked(a.ok) else Active(s.jobs, a.job))
  }

  ghost predicate JobOk(s: Ota, id: string) {
    && (id in s.pending ==> Active(s.jobs, id) && id !in s.started)
    && (id in s.started ==> id in s.jobs)
    && (forall f :: f in s.finished && f.job == id ==> id in s.started)
    && (id in s.jobs && !IsActive(s.jobs[id]) ==>
        exists i :: 0 <= i < |s.acks| && s.acks[i].job == id && s.acks[i].state.Done?)
  }

  ghost predicate OncePerJob(s: Ota) {
    && (forall i, j :: 0 <= i < j < |s.started| ==> s.started[i] != s.started[j])
    && OncePerFinish(s.finished) && OncePerAck(s.acks)
  }

  ghost predicate DeliveryInv(s: Ota) {
    && TableInv(s.jobs)
    && (forall device :: SessionOk(s, device))
    && (forall i :: 0 <= i < |s.acks| ==> AckOk(s, i))
    && (forall id :: JobOk(s, id))
    && OncePerJob(s)
  }

  // ── One step ────────────────────────────────────────────────────────────────

  /** What the agent is about to take is waiting. */
  lemma NextOnWire(s: Ota, device: string)
    requires SessionOk(s, device) && AgentAt(s, device).Watching?
    ensures var r := AgentAt(s, device).rx;
            r < |s.hub.rx| && (s.hub.rx[r].wire != [] ==> Waiting(s, device, s.hub.rx[r].wire[0]))
  {
    var r := AgentAt(s, device).rx;
    if s.hub.rx[r].wire != [] {
      assert Held(s.hub.rx[r])[|s.hub.rx[r].queue|] == s.hub.rx[r].wire[0];
    }
  }

  /** No job is pending while a live receiver of its device holds another: there would be two active jobs. */
  lemma EmptyOrNotPending(s: Ota, device: string, r: nat, id: string)
    requires TableInv(s.jobs) && LiveRxOk(s, device, r)
    requires Active(s.jobs, id) && s.jobs[id].device == device
    ensures Held(s.hub.rx[r]) == [] || id !in s.pending
  {
    var held := Held(s.hub.rx[r]);
    if held != [] {
      assert Waiting(s, device, held[0]);
    }
  }

  lemma StepKeepsPending(s: Ota, step: Step, id: string)
    requires DeliveryInv(s) && !step.ForeignAck? && id in Next(s, step).pending
    ensures Active(Next(s, step).jobs, id) && id !in Next(s, step).started
  {
    JobsOfStep(s, step);
    assert JobOk(s, id);
    if step.Receive? && AgentAt(s, step.device).Watching? {
      assert SessionOk(s, step.device);
      NextOnWire(s, step.device);
    }
    if step.ProcessAck? && step.ack < |s.acks| {
      assert AckOk(s, step.ack);
      assert JobOk(s, s.acks[step.ack].job);
    }
  }

  lemma StepKeepsStarted(s: Ota, step: Step, id: string)
    requires DeliveryInv(s) && !step.ForeignAck?
    ensures id in Next(s, step).started ==> id in Next(s, step).jobs
    ensures forall f :: f in Next(s, step).finished && f.job == id ==> id in Next(s, step).started
  {
    OthersKeepHistory(s, step);
    StepKeepsTable(s, step);
    assert JobOk(s, id);
    if step.Receive? && AgentAt(s, step.device).Watching? {
      assert SessionOk(s, step.device);
      NextOnWire(s, step.device);
    }
    if step.Finish? {
      assert SessionOk(s, step.device);
    }
  }

  lemma StepKeepsVerdict(s: Ota, step: Step, id: string)
    requires DeliveryInv(s) && !step.ForeignAck?
    requires id in Next(s, step).jobs && !IsActive(Next(s, step).jobs[id])
    ensures exists i ::
              0 <= i < |Next(s, step).acks| && Next(s, step).acks[i].job == id && Next(s, step).acks[i].state.Done?
  {
    var s' := Next(s, step);
    assert JobOk(s, id);
    JobsOfStep(s, step);
    if id in s.jobs && !IsActive(s.jobs[id]) {
      var i :| 0 <= i < |s.acks| && s.acks[i].job == id && s.acks[i].state.Done?;
      AcksFollow(s, step, i);
      assert s'.acks[i].job == id;
    } else {
      assert s'.acks[step.ack].job == id;
    }
  }

  /** Acknowledgement `i` is as it was or was just processed or lost. */
  predicate AckFollows(step: Step, i: nat, a: Ack, a': Ack) {
    && a'.job == a.job && a'.ok == a.ok
    && (a' != a ==> a.state.InFlight? && !a'.state.InFlight?)
    && (a' != a && a'.state.Done? ==> step == ProcessAck(i))
  }

  lemma AcksFollow(s: Ota, step: Step, i: nat)
    requires i < |s.acks|
    ensures i < |Next(s, step).acks| && AckFollows(step, i, s.acks[i], Next(s, step).acks[i])
  {
  }

  predicate OncePerAck(acks: seq<Ack>) {
    forall i, j :: 0 <= i < j < |acks| ==> acks[i].job != acks[j].job
  }

  predicate OncePerFinish(finished: seq<Application>) {
    forall i, j :: 0 <= i < j < |finished| ==> finished[i].job != finished[j].job
  }

  lemma ReceiveKeepsOnce(s: Ota, device: string)
    requires SessionOk(s, device) && OncePerJob(s)
    ensures OncePerJob(DoReceive(s, device))
  {
    if AgentAt(s, device).Watching? {
      NextOnWire(s, device);
    }
  }

  lemma FinishKeepsOnce(s: Ota, device: string, ok: bool)
    requires SessionOk(s, device) && OncePerFinish(s.finished)
    ensures OncePerFinish(Next(s, Finish(device, ok)).finished)
  {
    if AgentAt(s, device).Applying? {
      assert forall i :: 0 <= i < |s.finished| ==> s.finished[i] in s.finished;
    }
  }

  lemma SendAckKeepsOnce(s: Ota, device: string)
    requires SessionOk(s, device) && OncePerAck(s.acks)
    ensures OncePerAck(Next(s, SendAck(device)).acks)
  {
  }

  /** Only three steps add to what was started, finished or acknowledged. */
  lemma OthersKeepHistory(s: Ota, step: Step)
    ensures !step.Receive? ==> Next(s, step).started == s.started
    ensures !step.Finish? ==> Next(s, step).finished == s.finished
    ensures !step.SendAck? ==> |Next(s, step).acks| == |s.acks|
    ensures !step.SendAck? ==> forall i :: 0 <= i < |s.acks| ==> Next(s, step).acks[i].job == s.acks[i].job
  {
  }

  lemma StepKeepsWaiting(s: Ota, step: Step, device: string, job: string)
    requires DeliveryInv(s) && !step.ForeignAck? && Waiting(s, device, job)
    ensures Waiting(Next(s, step), device, job) || (step == Receive(device) && job in Next(s, step).started)
  {
    if step.ProcessAck? && step.ack < |s.acks| {
      assert AckOk(s, step.ack) && JobOk(s, s.acks[step.ack].job);
    }
    if step.Receive? && AgentAt(s, step.device).Watching? {
      assert SessionOk(s, step.device);
      NextOnWire(s, step.device);
    }
  }

  /** Nothing but a send adds to what a receiver holds. */
  predicate OnlyLess(x: Receiver, x': Receiver) {
    && x'.device == x.device && x'.missed <= x.missed && |Held(x')| <= |Held(x)|
    && (forall job :: job in Held(x') ==> job in Held(x))
    && (x.open || x.queue == [] ==> x'.open || x'.queue == [])
  }

  lemma PumpOnlyTakes(s: Ota, x: nat, r: nat)
    requires r < |s.hub.rx|
    ensures r < |DoPump(s, x).hub.rx| && OnlyLess(s.hub.rx[r], DoPump(s, x).hub.rx[r])
  {
  }

  lemma ReceiveOnlyTakes(s: Ota, device: string, r: nat)
    requires r < |s.hub.rx|
    ensures r < |DoReceive(s, device).hub.rx| && OnlyLess(s.hub.rx[r], DoReceive(s, device).hub.rx[r])
  {
  }

  lemma OthersLeaveOrClose(s: Ota, step: Step, r: nat)
    requires !step.Send? && !step.Pump? && !step.Receive? && r < |s.hub.rx|
    ensures r < |Next(s, step).hub.rx|
    ensures Next(s, step).hub.rx[r] == s.hub.rx[r] || Next(s, step).hub.rx[r] == Close(s.hub.rx[r])
  {
  }

  lemma OthersOnlyTake(s: Ota, step: Step, r: nat)
    requires !step.Send? && r < |s.hub.rx|
    ensures r < |Next(s, step).hub.rx| && OnlyLess(s.hub.rx[r], Next(s, step).hub.rx[r])
  {
    match step
    case Pump(x) => PumpOnlyTakes(s, x, r);
    case Receive(device) => ReceiveOnlyTakes(s, device, r);
    case _ => OthersLeaveOrClose(s, step, r);
  }

  /** What the receiver still has to deliver, first out first. */
  function InOrder(x: Receiver): seq<string> {
    x.wire + x.queue
  }

  lemma PumpKeepsOrder(s: Ota, r: nat)
    requires r < |s.hub.rx| && s.hub.rx[r].missed == 0
    ensures r < |DoPump(s, r).hub.rx| && InOrder(DoPump(s, r).hub.rx[r]) == InOrder(s.hub.rx[r])
  {
  }

  lemma SendAppends(s: Ota, id: string, r: nat)
    requires r < |s.hub.rx| && |s.hub.rx[r].queue| < 8
    ensures r < |DoSend(s, id).hub.rx|
    ensures var x, x' := s.hub.rx[r], DoSend(s, id).hub.rx[r];
            InOrder(x') == InOrder(x) || InOrder(x') == InOrder(x) + [id]
  {
    SendAddsOne(s, id, r);
    var x := s.hub.rx[r];
    assert x.wire + (x.queue + [id]) == InOrder(x) + [id];
  }

  lemma ReceiveTakesFirst(s: Ota, device: string, r: nat)
    requires r < |s.hub.rx| && s.hub.rx[r].wire != [] && AgentAt(s, device) == Watching(r)
    ensures var s' := DoReceive(s, device);
            && AgentAt(s', device) == Applying(r, InOrder(s.hub.rx[r])[0])
            && |s'.hub.rx| == |s.hub.rx| && InOrder(s'.hub.rx[r]) == InOrder(s.hub.rx[r])[1..]
  {
  }

  /**
   * Commands reach the agent in the order they were sent: a send appends, the stream passes them on in
   * order, and the agent takes the first.
   */
  lemma FirstInFirstOut(s: Ota, step: Step, r: nat)
    requires r < |s.hub.rx| && s.hub.rx[r].missed == 0 && |s.hub.rx[r].queue| < 8
    ensures r < |Next(s, step).hub.rx|
    ensures var x, x' := s.hub.rx[r], Next(s, step).hub.rx[r];
            && (step == Pump(r) ==> x'.wire + x'.queue == x.wire + x.queue)
            && (step.Send? ==>
                  x'.wire + x'.queue == x.wire + x.queue || x'.wire + x'.queue == x.wire + x.queue + [step.id])
            && (step.Receive? && AgentAt(s, step.device) == Watching(r) && x.wire != [] ==>
                  && AgentAt(Next(s, step), step.device) == Applying(r, (x.wire + x.queue)[0])
                  && x'.wire + x'.queue == (x.wire + x.queue)[1..])
  {
    match step
    case Pump(x) =>
      if x == r {
        PumpKeepsOrder(s, r);
      }
    case Send(id) => SendAppends(s, id, r);
    case Receive(device) =>
      if AgentAt(s, device) == Watching(r) && s.hub.rx[r].wire != [] {
        ReceiveTakesFirst(s, device, r);
      }
    case _ =>
  }

  lemma SendAddsOne(s: Ota, id: string, r: nat)
    requires r < |s.hub.rx|
    ensures var s' := Next(s, Send(id));
            r < |s'.hub.rx| && (s'.hub.rx[r] != s.hub.rx[r] ==>
              && id in s.pending && id in s.jobs && Listens(s.hub.rx[r], s.jobs[id].device)
              && s'.hub.rx[r] == Push(s.hub.rx[r], id) && id !in s'.pending)
  {
  }

  lemma SendKeepsLiveRx(s: Ota, id: string, device: string, r: nat)
    requires DeliveryInv(s) && LiveRxOk(s, device, r)
    ensures LiveRxOk(Next(s, Send(id)), device, r)
  {
    var s' := Next(s, Send(id));
    SendAddsOne(s, id, r);
    if s'.hub.rx[r] != s.hub.rx[r] {
      assert JobOk(s, id);
      EmptyOrNotPending(s, device, r, id);
      assert Held(s'.hub.rx[r]) == [id];
    } else {
      forall job | job in Held(s.hub.rx[r]) ensures Waiting(s', device, job) {
        StepKeepsWaiting(s, Send(id), device, job);
      }
    }
  }

  lemma StepKeepsLiveRx(s: Ota, step: Step, device: string, r: nat)
    requires DeliveryInv(s) && !step.ForeignAck? && step != Receive(device)
    requires LiveRxOk(s, device, r)
    ensures LiveRxOk(Next(s, step), device, r)
  {
    if step.Send? {
      SendKeepsLiveRx(s, step.id, device, r);
    } else {
      OthersOnlyTake(s, step, r);
      forall job | job in Held(Next(s, step).hub.rx[r]) ensures Waiting(Next(s, step), device, job) {
        StepKeepsWaiting(s, step, device, job);
      }
    }
  }

  lemma StepKeepsInHand(s: Ota, step: Step, device: string, job: string)
    requires DeliveryInv(s) && !step.ForeignAck? && step != SendAck(device)
    requires InHand(s, device, job)
    ensures InHand(Next(s, step), device, job)
  {
    if step.ProcessAck? && step.ack < |s.acks| {
      assert AckOk(s, step.ack);
    }
    if step.SendAck? {
      assert SessionOk(s, step.device);
    }
  }

  lemma StepKeepsUnfinished(s: Ota, step: Step, device: string)
    requires DeliveryInv(s) && step != Finish(device, true) && step != Finish(device, false)
    requires AgentAt(s, device).Applying?
    ensures forall f :: f in Next(s, step).finished ==> f.job != AgentAt(s, device).job
  {
    assert SessionOk(s, device);
    if step.Finish? {
      assert SessionOk(s, step.device);
    }
  }

  /** The agent of `device` acts in this step. */
  predicate Acts(step: Step, device: string) {
    match step
    case Connect(d) => d == device
    case Receive(d) => d == device
    case Finish(d, _) => d == device
    case SendAck(d) => d == device
    case GetReply(d) => d == device
    case Disconnect(d) => d == device
    case _ => false
  }

  lemma OthersLeavePc(s: Ota, step: Step, device: string)
    requires !Acts(step, device)
    ensures AgentAt(Next(s, step), device) == AgentAt(s, device)
    ensures |s.acks| <= |Next(s, step).acks|
    ensures forall i :: 0 <= i < |s.acks| ==> Next(s, step).acks[i].job == s.acks[i].job
    ensures forall f :: f in s.finished ==> f in Next(s, step).finished
  {
  }

  lemma TheOneTaken(s: Ota, device: string)
    requires SessionOk(s, device) && AgentAt(s, device).Watching?
    requires s.hub.rx[AgentAt(s, device).rx].wire != []
    ensures Held(Next(s, Receive(device)).hub.rx[AgentAt(s, device).rx]) == []
  {
    assert |Held(s.hub.rx[AgentAt(s, device).rx])| <= 1;
  }

  lemma NeverTaken(s: Ota, job: string)
    requires DeliveryInv(s) && job !in s.started
    ensures (forall i :: 0 <= i < |s.acks| ==> s.acks[i].job != job) && (forall f :: f in s.finished ==> f.job != job)
  {
    assert JobOk(s, job);
    forall i | 0 <= i < |s.acks| ensures s.acks[i].job != job {
      assert AckOk(s, i) && JobOk(s, s.acks[i].job);
    }
  }

  /** The others leave an agent with what it has. */
  lemma OthersKeepSessions(s: Ota, step: Step)
    requires DeliveryInv(s) && !step.ForeignAck?
    ensures forall device :: !Acts(step, device) ==> SessionOk(Next(s, step), device)
  {
    StepKeepsTable(s, step);
    forall device | !Acts(step, device) ensures SessionOk(Next(s, step), device) {
      assert SessionOk(s, device);
      OthersLeavePc(s, step, device);
      var pc := AgentAt(s, device);
      if !pc.Off? {
        StepKeepsLiveRx(s, step, device, pc.rx);
        if pc.Applying? {
          StepKeepsUnfinished(s, step, device);
        }
        if pc.Applying? || pc.Applied? {
          StepKeepsInHand(s, step, device, pc.job);
        }
      }
    }
  }

  /** The agent itself takes the one waiting command. */
  lemma OwnStepKeepsSession(s: Ota, step: Step)
    requires DeliveryInv(s)
    ensures forall device :: Acts(step, device) ==> SessionOk(Next(s, step), device)
  {
    forall device | Acts(step, device) ensures SessionOk(Next(s, step), device) {
      assert SessionOk(s, device);
      var pc := AgentAt(s, device);
      if step.Receive? && pc.Watching? && s.hub.rx[pc.rx].wire != [] {
        NextOnWire(s, device);
        TheOneTaken(s, device);
        NeverTaken(s, s.hub.rx[pc.rx].wire[0]);
      }
    }
  }

  /** A known acknowledgement stays right: its verdict is stored for good, or its job is still active. */
  lemma StepKeepsAcks(s: Ota, step: Step)
    requires DeliveryInv(s) && !step.ForeignAck?
    ensures var s' := Next(s, step); forall i :: 0 <= i < |s'.acks| ==> AckOk(s', i)
  {
    var s' := Next(s, step);
    OthersKeepHistory(s, step);
    JobsOfStep(s, step);
    forall i | 0 <= i < |s'.acks| ensures AckOk(s', i) {
      if i < |s.acks| {
        AcksFollow(s, step, i);
        assert AckOk(s, i);
        if step.ProcessAck? && step.ack < |s.acks| {
          assert AckOk(s, step.ack);
        }
      } else {
        assert SessionOk(s, step.device);
      }
    }
  }

  lemma StepKeepsDelivery(s: Ota, step: Step)
    requires DeliveryInv(s) && !step.ForeignAck?
    ensures DeliveryInv(Next(s, step))
  {
    StepKeepsTable(s, step);
    assert OncePerJob(Next(s, step)) by {
      OthersKeepHistory(s, step);
      match step
      case Receive(device) =>
        assert SessionOk(s, device);
        ReceiveKeepsOnce(s, device);
      case Finish(device, ok) =>
        assert SessionOk(s, device);
        FinishKeepsOnce(s, device, ok);
      case SendAck(device) =>
        assert SessionOk(s, device);
        SendAckKeepsOnce(s, device);
      case _ =>
    }
    OthersKeepSessions(s, step);
    OwnStepKeepsSession(s, step);
    assert forall device :: SessionOk(Next(s, step), device);
    StepKeepsAcks(s, step);
    forall id ensures JobOk(Next(s, step), id) {
      if id in Next(s, step).pending {
        StepKeepsPending(s, step, id);
      }
      StepKeepsStarted(s, step, id);
      if id in Next(s, step).jobs && !IsActive(Next(s, step).jobs[id]) {
        StepKeepsVerdict(s, step, id);
      }
    }
  }

  lemma {:induction false} RunKeepsDelivery(s: Ota, steps: seq<Step>)
    requires DeliveryInv(s) && AgentsOnly(steps)
    ensures DeliveryInv(Run(s, steps))
    decreases |steps|
  {
    if steps != [] {
      StepKeepsDelivery(s, steps[0]);
      RunKeepsDelivery(Next(s, steps[0]), steps[1..]);
    }
  }
}
