/** Which active jobs can still reach a verdict: the agent never polls, so a command once missed stays missed. */
module OtaProgress {
  import opened Prelude
  import opened JobTable
  import opened Dispatch
  import opened OtaProtocol
  import opened OtaDelivery
  import opened OtaResults

  ghost predicate Settles(s: Ota, id: string, steps: seq<Step>) {
    && AgentsOnly(steps) && id in Run(s, steps).jobs && !Active(Run(s, steps).jobs, id)
  }

  ghost predicate CanSettle(s: Ota, id: string) {
    exists steps: seq<Step> :: Settles(s, id, steps)
  }

  /** `id` is on its way: about to be sent, held by the live session, in the agent's hands, or acknowledged. */
  ghost predicate OnItsWay(s: Ota, id: string)
    requires id in s.jobs
  {
    var pc := AgentAt(s, s.jobs[id].device);
    || id in s.pending
    || (!pc.Off? && pc.rx < |s.hub.rx| && id in Held(s.hub.rx[pc.rx]))
    || ((pc.Applying? || pc.Applied?) && pc.job == id)
    || exists i :: 0 <= i < |s.acks| && s.acks[i].state.InFlight? && s.acks[i].job == id
  }

  // ── Off the way, for ever ───────────────────────────────────────────────────

  lemma NoNewAck(s: Ota, step: Step, id: string)
    requires DeliveryInv(s) && Active(s.jobs, id) && !OnItsWay(s, id) && !step.ForeignAck?
    ensures forall i :: 0 <= i < |Next(s, step).acks| && Next(s, step).acks[i].job == id ==>
                !Next(s, step).acks[i].state.InFlight?
  {
    if step.SendAck? {
      assert SessionOk(s, step.device);
    }
  }

  /** The session of the job's own device does not come by it. */
  lemma SessionStaysClear(s: Ota, step: Step, id: string)
    requires DeliveryInv(s) && Active(s.jobs, id) && !OnItsWay(s, id) && !step.ForeignAck?
    ensures var s' := Next(s, step); var pc' := AgentAt(s', s.jobs[id].device);
            && !((pc'.Applying? || pc'.Applied?) && pc'.job == id)
            && !(!pc'.Off? && pc'.rx < |s'.hub.rx| && id in Held(s'.hub.rx[pc'.rx]))
  {
    var device := s.jobs[id].device;
    assert SessionOk(s, device);
    if Acts(step, device) {
      ActStaysClear(s, step, id);
    } else {
      OthersLeavePc(s, step, device);
      if !AgentAt(s, device).Off? {
        HeldStaysClear(s, step, id, AgentAt(s, device).rx);
      }
    }
  }

  lemma ActStaysClear(s: Ota, step: Step, id: string)
    requires DeliveryInv(s) && Active(s.jobs, id) && !OnItsWay(s, id) && Acts(step, s.jobs[id].device)
    ensures var s' := Next(s, step); var pc' := AgentAt(s', s.jobs[id].device);
            && !((pc'.Applying? || pc'.Applied?) && pc'.job == id)
            && !(!pc'.Off? && pc'.rx < |s'.hub.rx| && id in Held(s'.hub.rx[pc'.rx]))
  {
    var device := s.jobs[id].device;
    assert SessionOk(s, device);
    if step.Receive? && AgentAt(s, device).Watching? {
      NextOnWire(s, device);
    }
  }

  lemma HeldStaysClear(s: Ota, step: Step, id: string, r: nat)
    requires r < |s.hub.rx| && id !in Held(s.hub.rx[r]) && id in s.jobs && id !in s.pending
    ensures r < |Next(s, step).hub.rx| && id !in Held(Next(s, step).hub.rx[r])
  {
  }

  lemma StaysOffTheWay(s: Ota, step: Step, id: string)
    requires DeliveryInv(s) && Active(s.jobs, id) && !OnItsWay(s, id) && !step.ForeignAck?
    ensures Active(Next(s, step).jobs, id) && !OnItsWay(Next(s, step), id)
  {
    NoNewAck(s, step, id);
    NotAcked(s, step, id);
    UnackedStaysActive(s, step, id);
    SessionStaysClear(s, step, id);
    StaysUnpending(s, step, id);
  }

  lemma NotAcked(s: Ota, step: Step, id: string)
    requires DeliveryInv(s) && Active(s.jobs, id) && !OnItsWay(s, id) && !step.ForeignAck?
    ensures !Acknowledges(s, step, id)
  {
  }

  lemma StaysUnpending(s: Ota, step: Step, id: string)
    requires id in s.jobs && id !in s.pending
    ensures id !in Next(s, step).pending
  {
  }

  lemma {:induction false} OffTheWayForever(s: Ota, steps: seq<Step>, id: string)
    requires DeliveryInv(s) && Active(s.jobs, id) && !OnItsWay(s, id) && AgentsOnly(steps)
    ensures Active(Run(s, steps).jobs, id) && !OnItsWay(Run(s, steps), id)
    decreases |steps|
  {
    if steps != [] {
      StaysOffTheWay(s, steps[0], id);
      StepKeepsDelivery(s, steps[0]);
      OffTheWayForever(Next(s, steps[0]), steps[1..], id);
    }
  }

  // ── On the way, to the verdict ──────────────────────────────────────────────

  lemma {:induction false} StepBack(s: Ota, step: Step, id: string)
    requires CanSettle(Next(s, step), id) && !step.ForeignAck?
    ensures CanSettle(s, id)
  {
    var steps :| Settles(Next(s, step), id, steps);
    assert ([step] + steps)[1..] == steps;
    assert Settles(s, id, [step] + steps);
  }

  lemma FromAck(s: Ota, id: string, i: nat)
    requires DeliveryInv(s) && Active(s.jobs, id)
    requires i < |s.acks| && s.acks[i].state.InFlight? && s.acks[i].job == id
    ensures CanSettle(s, id)
  {
    assert Settles(Next(s, ProcessAck(i)), id, []);
    StepBack(s, ProcessAck(i), id);
  }

  lemma FromApplied(s: Ota, id: string)
    requires DeliveryInv(s) && Active(s.jobs, id)
    requires var pc := AgentAt(s, s.jobs[id].device); (pc.Applying? || pc.Applied?) && pc.job == id
    ensures CanSettle(s, id)
    decreases AgentAt(s, s.jobs[id].device).Applying?
  {
    var device := s.jobs[id].device;
    if AgentAt(s, device).Applying? {
      StepKeepsDelivery(s, Finish(device, true));
      FromApplied(Next(s, Finish(device, true)), id);
      StepBack(s, Finish(device, true), id);
    } else {
      StepKeepsDelivery(s, SendAck(device));
      FromAck(Next(s, SendAck(device)), id, |s.acks|);
      StepBack(s, SendAck(device), id);
    }
  }

  lemma FromWatching(s: Ota, id: string)
    requires DeliveryInv(s) && Active(s.jobs, id)
    requires var pc := AgentAt(s, s.jobs[id].device);
             pc.Watching? && pc.rx < |s.hub.rx| && id in Held(s.hub.rx[pc.rx])
    ensures CanSettle(s, id)
    decreases |s.hub.rx[AgentAt(s, s.jobs[id].device).rx].queue|
  {
    var device := s.jobs[id].device;
    var r := AgentAt(s, device).rx;
    assert SessionOk(s, device);
    if s.hub.rx[r].wire != [] {
      assert s.hub.rx[r].wire == [id];
      StepKeepsDelivery(s, Receive(device));
      FromApplied(Next(s, Receive(device)), id);
      StepBack(s, Receive(device), id);
    } else {
      assert s.hub.rx[r].queue == [id];
      StepKeepsDelivery(s, Pump(r));
      FromWatching(Next(s, Pump(r)), id);
      StepBack(s, Pump(r), id);
    }
  }

  /** A session that holds an active job is watching, or its last acknowledgement is processed. */
  lemma HoldingSession(s: Ota, id: string)
    requires DeliveryInv(s) && Active(s.jobs, id)
    requires var pc := AgentAt(s, s.jobs[id].device);
             !pc.Off? && pc.rx < |s.hub.rx| && id in Held(s.hub.rx[pc.rx])
    ensures var pc := AgentAt(s, s.jobs[id].device);
            pc.Watching? || (pc.Acking? && pc.ack < |s.acks| && s.acks[pc.ack].state.Done?)
  {
    var device := s.jobs[id].device;
    assert SessionOk(s, device);
    var pc := AgentAt(s, device);
    if pc.Acking? {
      assert AckOk(s, pc.ack);
      assert JobOk(s, s.acks[pc.ack].job);
    }
  }

  lemma FromHeld(s: Ota, id: string)
    requires DeliveryInv(s) && Active(s.jobs, id)
    requires var pc := AgentAt(s, s.jobs[id].device);
             !pc.Off? && pc.rx < |s.hub.rx| && id in Held(s.hub.rx[pc.rx])
    ensures CanSettle(s, id)
  {
    var device := s.jobs[id].device;
    HoldingSession(s, id);
    if AgentAt(s, device).Watching? {
      FromWatching(s, id);
    } else {
      StepKeepsDelivery(s, GetReply(device));
      FromWatching(Next(s, GetReply(device)), id);
      StepBack(s, GetReply(device), id);
    }
  }

  lemma FromPending(s: Ota, id: string)
    requires DeliveryInv(s) && Active(s.jobs, id) && id in s.pending
    ensures CanSettle(s, id)
  {
    var device := s.jobs[id].device;
    var s1 := Next(s, Disconnect(device));
    StepKeepsDelivery(s, Disconnect(device));
    var s2 := Next(s1, Connect(device));
    StepKeepsDelivery(s1, Connect(device));
    var r := |s.hub.rx|;
    assert AgentAt(s2, device) == Watching(r) && Listens(s2.hub.rx[r], device);
    CountPositive(s2.hub.rx, device);
    var s3 := Next(s2, Send(id));
    StepKeepsDelivery(s2, Send(id));
    assert s3.hub.rx[r].queue == [id];
    assert id in Held(s3.hub.rx[r]);
    FromWatching(s3, id);
    StepBack(s2, Send(id), id);
    StepBack(s1, Connect(device), id);
    StepBack(s, Disconnect(device), id);
  }

  /**
   * In every state that agents alone can bring about, an active job can still reach a verdict exactly when
   * it is on its way; otherwise it stays active for ever.
   */
  lemma SettlesIffOnItsWay(steps: seq<Step>, id: string)
    requires AgentsOnly(steps) && Active(Run(START, steps).jobs, id)
    ensures var s := Run(START, steps); CanSettle(s, id) <==> OnItsWay(s, id)
  {
    RunKeepsDelivery(START, steps);
    var s := Run(START, steps);
    var pc := AgentAt(s, s.jobs[id].device);
    if !OnItsWay(s, id) {
      forall more: seq<Step> ensures !Settles(s, id, more) {
        if AgentsOnly(more) {
          OffTheWayForever(s, more, id);
        }
      }
    } else if id in s.pending {
      FromPending(s, id);
    } else if (pc.Applying? || pc.Applied?) && pc.job == id {
      FromApplied(s, id);
    } else if !pc.Off? && pc.rx < |s.hub.rx| && id in Held(s.hub.rx[pc.rx]) {
      FromHeld(s, id);
    } else {
      var i :| 0 <= i < |s.acks| && s.acks[i].state.InFlight? && s.acks[i].job == id;
      FromAck(s, id, i);
    }
  }

  /** One missed command blocks its device: from then on no update can be created for it. */
  lemma MissedCommandBlocksDevice(steps: seq<Step>, id: string, more: seq<Step>)
    requires AgentsOnly(steps) && AgentsOnly(more)
    requires Active(Run(START, steps).jobs, id) && !OnItsWay(Run(START, steps), id)
    ensures var s := Run(START, steps); var t := Run(s, more).jobs;
            forall id', version, now :: CreateJob(t, id', s.jobs[id].device, version, now).0 == Failure(AlreadyPending)
  {
    RunKeepsDelivery(START, steps);
    var s := Run(START, steps);
    OffTheWayForever(s, more, id);
    OneActiveJobPerDevice(s, more);
    assert id in ActiveIds(Run(s, more).jobs, s.jobs[id].device);
  }

  /** Such jobs exist: a device that is not connected when the command is sent never gets another update. */
  lemma UnheardCommandIsMissed()
    ensures var s := Run(START, [Create("j", "d", "v", 0), Send("j")]);
            Active(s.jobs, "j") && !OnItsWay(s, "j") && !CanSettle(s, "j")
  {
    var steps := [Create("j", "d", "v", 0), Send("j")];
    var s1 := Next(START, steps[0]);
    assert s1.pending == {"j"};
    assert steps[1..] == [Send("j")] && steps[1..][1..] == [];
    assert Run(START, steps) == Run(s1, [Send("j")]) == Next(s1, Send("j"));
    SettlesIffOnItsWay(steps, "j");
  }
}
