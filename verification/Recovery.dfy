/**
 * Which agents can still come online. The agent retries nothing that a lost reply or a badly timed stop
 * has spent; `Stuck` names those situations exactly.
 */
module Recovery {
  import opened Prelude
  import opened Pki
  import opened DeviceTables
  import opened ServerProtocol
  import opened Lifecycle
  import opened Claims

  /** `reg`: may the operator call register_serial (only tests do). */
  predicate Allowed(step: Step, reg: bool) {
    reg || !(step.ServerDo? && step.st.Register?)
  }

  ghost predicate Leads(s: State, i: nat, reg: bool, steps: seq<Step>) {
    && (forall step :: step in steps ==> Allowed(step, reg))
    && i < |Run(s, steps).agents| && Run(s, steps).agents[i].pc.Online?
  }

  ghost predicate CanComeOnline(s: State, i: nat, reg: bool) {
    exists steps: seq<Step> :: Leads(s, i, reg, steps)
  }

  /** No device certificate, none on its way, and the token can no longer be (or never was) spendable by this agent. */
  ghost predicate ProvisioningStuck(v: Server, a: Agent) {
    && a.disk.deviceCert.None?
    && !a.pc.ProvisionReceived?
    && !(a.pc.ProvisionWaiting? && a.pc.r < |v.prov|
         && (v.prov[a.pc.r].phase.ProvClaimed? || v.prov[a.pc.r].phase.ProvReplied?))
    && (a.serial == "" || a.token == "" ||
        (a.serial in v.tables.manifest
         && (v.tables.manifest[a.serial].token != a.token || Provisioned(v.tables, a.serial))))
  }

  /** The serial has its device row, but this agent neither holds nor is about to receive the certificate. */
  ghost predicate EnrollmentStuck(v: Server, a: Agent) {
    && a.disk.opCert.None?
    && HasDevice(v.tables, a.serial)
    && !a.pc.EnrollReceived?
    && !(a.pc.EnrollWaiting? && a.pc.r < |v.enroll| && v.enroll[a.pc.r].phase.Replied?)
  }

  /** Stopped between writing operational.pem and device-id: phase 2 is taken as done, phase 3 cannot load. */
  ghost predicate IdentityLost(a: Agent) {
    a.disk.opCert.Some? && a.disk.deviceId.None? && !a.pc.EnrollReceived?
  }

  /** The claim is spent and no enrollment of this agent holds it; only register_serial reopens it. */
  ghost predicate ClaimLost(v: Server, a: Agent) {
    && a.disk.opCert.None?
    && IsClaimed(v.tables, a.serial)
    && !a.pc.EnrollReceived?
    && !(a.pc.EnrollWaiting? && a.pc.r < |v.enroll| &&
         (v.enroll[a.pc.r].phase.Claimed? || v.enroll[a.pc.r].phase.Signed? || v.enroll[a.pc.r].phase.Replied?))
  }

  ghost predicate Stuck(v: Server, a: Agent, reg: bool) {
    ProvisioningStuck(v, a) || EnrollmentStuck(v, a) || IdentityLost(a) || (!reg && ClaimLost(v, a))
  }

  // ── Stuck is for ever ───────────────────────────────────────────────────────

  lemma ServerStepKeepsProvisioningStuck(v: Server, st: ServerStep, a: Agent)
    requires AgentOk(v, a) && ProvisioningStuck(v, a)
    ensures ProvisioningStuck(ServerNext(v, st), a)
  {
    if a.serial in v.tables.manifest {
      StepKeepsManifestRow(v, st, a.serial);
      StepGrowsTables(v, st);
    }
  }

  /** No request for a serial that has its row is answered any more. */
  lemma NoSecondReply(v: Server, st: ServerStep, r: nat)
    requires r < |v.enroll| && !v.enroll[r].phase.Replied? && HasDevice(v.tables, SerialOf(v.enroll[r]))
    ensures r < |ServerNext(v, st).enroll| && !ServerNext(v, st).enroll[r].phase.Replied?
  {
  }

  lemma ServerStepKeepsEnrollmentStuck(v: Server, st: ServerStep, a: Agent)
    requires AgentOk(v, a) && EnrollmentStuck(v, a)
    ensures EnrollmentStuck(ServerNext(v, st), a)
  {
    StepKeepsDevice(v, st, a.serial);
    if a.pc.EnrollWaiting? {
      NoSecondReply(v, st, a.pc.r);
    }
  }

  lemma ServerStepKeepsClaimLost(v: Server, st: ServerStep, a: Agent)
    requires AgentOk(v, a) && ClaimLost(v, a) && !st.Register?
    ensures ClaimLost(ServerNext(v, st), a)
  {
    NewlyClaimed(v, st, a.serial);
  }

  lemma ServerStepKeepsStuck(v: Server, st: ServerStep, a: Agent, reg: bool)
    requires AgentOk(v, a) && Stuck(v, a, reg) && (reg || !st.Register?)
    ensures Stuck(ServerNext(v, st), a, reg)
  {
    if ProvisioningStuck(v, a) {
      ServerStepKeepsProvisioningStuck(v, st, a);
    } else if EnrollmentStuck(v, a) {
      ServerStepKeepsEnrollmentStuck(v, st, a);
    } else if !IdentityLost(a) {
      ServerStepKeepsClaimLost(v, st, a);
    }
  }

  lemma AgentStepKeepsStuck(v: Server, a: Agent, act: AgentStep, reg: bool)
    requires AgentOk(v, a) && Stuck(v, a, reg)
    ensures Sends(a, act).None? ==> Stuck(v, AgentNext(v, a, act), reg)
    ensures Sends(a, act).Some? ==> Stuck(ServerNext(v, Sends(a, act).value), AgentNext(v, a, act), reg)
  {
  }

  lemma StepKeepsStuck(s: State, step: Step, i: nat, reg: bool)
    requires Inv(s) && i < |s.agents| && Stuck(s.server, s.agents[i], reg) && Allowed(step, reg)
    ensures i < |Next(s, step).agents| && Stuck(Next(s, step).server, Next(s, step).agents[i], reg)
  {
    match step
    case ServerDo(st) => ServerStepKeepsStuck(s.server, st, s.agents[i], reg);
    case AddAgent(_, _, _) =>
    case AgentDo(j, act) =>
      if j == i {
        AgentStepKeepsStuck(s.server, s.agents[i], act, reg);
      } else if j < |s.agents| && Sends(s.agents[j], act).Some? {
        ServerStepKeepsStuck(s.server, Sends(s.agents[j], act).value, s.agents[i], reg);
      }
  }

  lemma {:induction false} StuckForever(s: State, steps: seq<Step>, i: nat, reg: bool)
    requires Inv(s) && i < |s.agents| && Stuck(s.server, s.agents[i], reg)
    requires forall step :: step in steps ==> Allowed(step, reg)
    ensures i < |Run(s, steps).agents| && !Run(s, steps).agents[i].pc.Online?
    decreases |steps|
  {
    assert AgentOk(s.server, s.agents[i]);
    if steps != [] {
      StepKeepsInv(s, steps[0]);
      StepKeepsStuck(s, steps[0], i, reg);
      StuckForever(Next(s, steps[0]), steps[1..], i, reg);
    }
  }

  // ── Every other agent has a way ─────────────────────────────────────────────

  lemma {:induction false} OneStepBack(s: State, step: Step, i: nat, reg: bool)
    requires CanComeOnline(Next(s, step), i, reg) && Allowed(step, reg)
    ensures CanComeOnline(s, i, reg)
  {
    var steps :| Leads(Next(s, step), i, reg, steps);
    assert ([step] + steps)[1..] == steps;
    assert Run(s, [step] + steps) == Run(Next(s, step), steps);
    assert Leads(s, i, reg, [step] + steps);
  }

  function Act(s: State, i: nat, act: AgentStep): State {
    Next(s, AgentDo(i, act))
  }

  lemma FreshId(ids: set<string>) returns (id: string)
    ensures id !in ids
    ensures forall x :: x in ids ==> |x| < |id|
  {
    id := "a";
    if ids != {} {
      var x :| x in ids;
      var id' := FreshId(ids - {x});
      id := if |x| < |id'| then id' else seq(|x| + 1, _ => 'a');
    }
  }

  lemma FromStoredIdentity(s: State, i: nat, reg: bool)
    requires Inv(s) && i < |s.agents|
    requires s.agents[i].disk.opCert.Some? && s.agents[i].disk.deviceId.Some?
    ensures CanComeOnline(s, i, reg)
  {
    var s1 := Act(s, i, Stop);
    var s2 := Act(s1, i, Boot(0));
    var s3 := Act(s2, i, BeginEnroll(0));
    var s4 := Act(s3, i, GoOnline);
    assert AgentOk(s.server, s.agents[i]);
    assert Leads(s4, i, reg, []);
    OneStepBack(s3, AgentDo(i, GoOnline), i, reg);
    OneStepBack(s2, AgentDo(i, BeginEnroll(0)), i, reg);
    OneStepBack(s1, AgentDo(i, Boot(0)), i, reg);
    OneStepBack(s, AgentDo(i, Stop), i, reg);
  }

  lemma {:induction false} FromEnrollReceived(s: State, i: nat, reg: bool)
    requires Inv(s) && i < |s.agents| && s.agents[i].pc.EnrollReceived?
    ensures CanComeOnline(s, i, reg)
    decreases 3 - s.agents[i].pc.written
  {
    assert AgentOk(s.server, s.agents[i]);
    if s.agents[i].pc.written == 3 {
      FromStoredIdentity(s, i, reg);
    } else {
      StepKeepsInv(s, AgentDo(i, StoreNext));
      FromEnrollReceived(Act(s, i, StoreNext), i, reg);
      OneStepBack(s, AgentDo(i, StoreNext), i, reg);
    }
  }

  lemma FromReply(s: State, i: nat, reg: bool)
    requires Inv(s) && i < |s.agents| && s.agents[i].pc.EnrollWaiting?
    requires s.agents[i].pc.r < |s.server.enroll| && s.server.enroll[s.agents[i].pc.r].phase.Replied?
    ensures CanComeOnline(s, i, reg)
  {
    StepKeepsInv(s, AgentDo(i, ReceiveEnroll));
    FromEnrollReceived(Act(s, i, ReceiveEnroll), i, reg);
    OneStepBack(s, AgentDo(i, ReceiveEnroll), i, reg);
  }

  lemma FromClaimHeld(s: State, i: nat, reg: bool)
    requires Inv(s) && i < |s.agents| && s.agents[i].pc.EnrollWaiting?
    requires s.agents[i].pc.r < |s.server.enroll| && !HasDevice(s.server.tables, s.agents[i].serial)
    requires s.server.enroll[s.agents[i].pc.r].phase.Claimed? || s.server.enroll[s.agents[i].pc.r].phase.Signed?
    ensures CanComeOnline(s, i, reg)
    decreases s.server.enroll[s.agents[i].pc.r].phase.Claimed?
  {
    var r := s.agents[i].pc.r;
    assert AgentOk(s.server, s.agents[i]);
    if s.server.enroll[r].phase.Claimed? {
      var s1 := Next(s, ServerDo(SignEnroll(r)));
      assert s1.server.enroll[r].phase.Signed? && s1.server.tables == s.server.tables;
      StepKeepsInv(s, ServerDo(SignEnroll(r)));
      FromClaimHeld(s1, i, reg);
      OneStepBack(s, ServerDo(SignEnroll(r)), i, reg);
    } else {
      var id := FreshId(s.server.tables.devices.Keys);
      var s1 := Next(s, ServerDo(CreateEnroll(r, id, 0)));
      assert s1.server.enroll[r].phase.Replied?;
      StepKeepsInv(s, ServerDo(CreateEnroll(r, id, 0)));
      FromReply(s1, i, reg);
      OneStepBack(s, ServerDo(CreateEnroll(r, id, 0)), i, reg);
    }
  }

  lemma FromClaimable(s: State, i: nat, reg: bool)
    requires Inv(s) && i < |s.agents| && s.agents[i].pc.EnrollWaiting?
    requires s.agents[i].pc.r < |s.server.enroll|
    requires var q := s.server.enroll[s.agents[i].pc.r];
             q.phase.Arrived? && CheckPeer(q.peer, q.serialField) == Success(s.agents[i].serial)
    requires var t := s.server.tables; var serial := s.agents[i].serial;
             serial in t.pre && !IsClaimed(t, serial) && !HasDevice(t, serial)
    ensures CanComeOnline(s, i, reg)
  {
    var r := s.agents[i].pc.r;
    var s1 := Next(s, ServerDo(ClaimEnroll(r)));
    assert s1.server.enroll[r].phase.Claimed? && s1.server.tables.devices == s.server.tables.devices;
    StepKeepsInv(s, ServerDo(ClaimEnroll(r)));
    FromClaimHeld(s1, i, reg);
    OneStepBack(s, ServerDo(ClaimEnroll(r)), i, reg);
  }

  lemma FromBoot(s: State, i: nat, reg: bool)
    requires Inv(s) && i < |s.agents| && s.agents[i].pc.Down?
    requires s.agents[i].disk.deviceCert.Some? && s.agents[i].disk.opCert.None?
    requires var t := s.server.tables; var serial := s.agents[i].serial;
             serial in t.pre && !IsClaimed(t, serial) && !HasDevice(t, serial)
    ensures CanComeOnline(s, i, reg)
  {
    assert AgentOk(s.server, s.agents[i]);
    var s1 := Act(s, i, Boot(0));
    StepKeepsInv(s, AgentDo(i, Boot(0)));
    var s2 := Act(s1, i, BeginEnroll(0));
    StepKeepsInv(s1, AgentDo(i, BeginEnroll(0)));
    var s3 := Act(s2, i, SendEnroll);
    StepKeepsInv(s2, AgentDo(i, SendEnroll));
    assert s3.server.tables == s.server.tables;
    FromClaimable(s3, i, reg);
    OneStepBack(s2, AgentDo(i, SendEnroll), i, reg);
    OneStepBack(s1, AgentDo(i, BeginEnroll(0)), i, reg);
    OneStepBack(s, AgentDo(i, Boot(0)), i, reg);
  }

  /** The agent starts phase 2 over, after the operator reopens the claim if it was spent and `reg` allows it. */
  lemma FromDeviceCert(s: State, i: nat, reg: bool)
    requires Inv(s) && i < |s.agents|
    requires s.agents[i].disk.deviceCert.Some? && s.agents[i].disk.opCert.None? && !s.agents[i].pc.EnrollReceived?
    requires !HasDevice(s.server.tables, s.agents[i].serial)
    requires !reg ==> !ClaimLost(s.server, s.agents[i])
    ensures CanComeOnline(s, i, reg)
  {
    var a := s.agents[i];
    assert AgentOk(s.server, a);
    if !IsClaimed(s.server.tables, a.serial) {
      StepKeepsInv(s, AgentDo(i, Stop));
      FromBoot(Act(s, i, Stop), i, reg);
      OneStepBack(s, AgentDo(i, Stop), i, reg);
    } else if !reg {
      if s.server.enroll[a.pc.r].phase.Replied? {
        FromReply(s, i, reg);
      } else {
        FromClaimHeld(s, i, reg);
      }
    } else {
      var register := ServerDo(Register(a.serial, ""));
      var s1 := Next(s, register);
      StepKeepsInv(s, register);
      StepKeepsInv(s1, AgentDo(i, Stop));
      assert s1.server.tables.devices == s.server.tables.devices;
      FromBoot(Act(s1, i, Stop), i, reg);
      OneStepBack(s1, AgentDo(i, Stop), i, reg);
      OneStepBack(s, register, i, reg);
    }
  }

  lemma FromProvisionReceived(s: State, i: nat, reg: bool)
    requires Inv(s) && i < |s.agents| && s.agents[i].pc.ProvisionReceived?
    requires s.agents[i].disk.opCert.None? && !HasDevice(s.server.tables, s.agents[i].serial)
    requires !reg ==> !IsClaimed(s.server.tables, s.agents[i].serial)
    ensures CanComeOnline(s, i, reg)
  {
    StepKeepsInv(s, AgentDo(i, StoreDeviceCert));
    FromDeviceCert(Act(s, i, StoreDeviceCert), i, reg);
    OneStepBack(s, AgentDo(i, StoreDeviceCert), i, reg);
  }

  lemma FromProvisionClaimed(s: State, i: nat, reg: bool)
    requires Inv(s) && i < |s.agents| && s.agents[i].pc.ProvisionWaiting?
    requires s.agents[i].pc.r < |s.server.prov|
    requires s.server.prov[s.agents[i].pc.r].phase.ProvClaimed? || s.server.prov[s.agents[i].pc.r].phase.ProvReplied?
    requires s.agents[i].disk.opCert.None? && !HasDevice(s.server.tables, s.agents[i].serial)
    requires !reg ==> !IsClaimed(s.server.tables, s.agents[i].serial)
    ensures CanComeOnline(s, i, reg)
    decreases s.server.prov[s.agents[i].pc.r].phase.ProvClaimed?
  {
    var r := s.agents[i].pc.r;
    assert AgentOk(s.server, s.agents[i]);
    if s.server.prov[r].phase.ProvClaimed? {
      StepKeepsInv(s, ServerDo(SignProv(r)));
      FromProvisionClaimed(Next(s, ServerDo(SignProv(r))), i, reg);
      OneStepBack(s, ServerDo(SignProv(r)), i, reg);
    } else {
      StepKeepsInv(s, AgentDo(i, ReceiveProvision));
      FromProvisionReceived(Act(s, i, ReceiveProvision), i, reg);
      OneStepBack(s, AgentDo(i, ReceiveProvision), i, reg);
    }
  }

  lemma FromProvisionArrived(s: State, i: nat, reg: bool)
    requires Inv(s) && i < |s.agents| && s.agents[i].pc.ProvisionWaiting? && s.agents[i].pc.r < |s.server.prov|
    requires s.agents[i].disk.opCert.None? && !HasDevice(s.server.tables, s.agents[i].serial)
    requires !reg ==> !IsClaimed(s.server.tables, s.agents[i].serial)
    requires var q := s.server.prov[s.agents[i].pc.r]; var t := s.server.tables;
             && q.phase.ProvArrived? && q.csr.Csr? && q.serial != "" && q.token != ""
             && q.serial in t.manifest && t.manifest[q.serial].token == q.token && !Provisioned(t, q.serial)
    ensures CanComeOnline(s, i, reg)
  {
    var r := s.agents[i].pc.r;
    var s1 := Next(s, ServerDo(ClaimProv(r, 0)));
    StepKeepsInv(s, ServerDo(ClaimProv(r, 0)));
    assert s1.server.prov[r].phase.ProvClaimed? && s1.server.tables.devices == s.server.tables.devices;
    FromProvisionClaimed(s1, i, reg);
    OneStepBack(s, ServerDo(ClaimProv(r, 0)), i, reg);
  }

  /** The operator seeds the serial if it is unknown, and the agent starts over. */
  lemma FromSpendableToken(s: State, i: nat, reg: bool)
    requires Inv(s) && i < |s.agents|
    requires s.agents[i].disk.deviceCert.None? && !HasDevice(s.server.tables, s.agents[i].serial)
    requires !reg ==> !IsClaimed(s.server.tables, s.agents[i].serial)
    requires s.agents[i].serial != "" && s.agents[i].token != ""
    requires var t := s.server.tables; var a := s.agents[i];
             a.serial in t.manifest ==> t.manifest[a.serial].token == a.token && !Provisioned(t, a.serial)
    ensures CanComeOnline(s, i, reg)
  {
    var a := s.agents[i];
    assert AgentOk(s.server, a);
    var seed := ServerDo(Seed(a.serial, "", a.token));
    var s1 := Next(s, seed);
    StepKeepsInv(s, seed);
    StepKeepsInv(s1, AgentDo(i, Stop));
    assert !HasDevice(s1.server.tables, a.serial);
    FromSeeded(Act(s1, i, Stop), i, reg);
    OneStepBack(s1, AgentDo(i, Stop), i, reg);
    OneStepBack(s, seed, i, reg);
  }

  lemma FromSeeded(s: State, i: nat, reg: bool)
    requires Inv(s) && i < |s.agents| && s.agents[i].pc.Down?
    requires s.agents[i].disk.deviceCert.None? && !HasDevice(s.server.tables, s.agents[i].serial)
    requires !reg ==> !IsClaimed(s.server.tables, s.agents[i].serial)
    requires s.agents[i].serial != "" && s.agents[i].token != ""
    requires var t := s.server.tables; var a := s.agents[i];
             a.serial in t.manifest && t.manifest[a.serial].token == a.token && !Provisioned(t, a.serial)
    ensures CanComeOnline(s, i, reg)
  {
    var a := s.agents[i];
    assert AgentOk(s.server, a);
    var s1 := Act(s, i, Boot(0));
    StepKeepsInv(s, AgentDo(i, Boot(0)));
    var s2 := Act(s1, i, SendProvision);
    StepKeepsInv(s1, AgentDo(i, SendProvision));
    assert s2.server.tables == s.server.tables;
    assert s2.server.prov[s2.agents[i].pc.r] == ProvRequest(a.serial, Csr(a.serial, 0), a.token, ProvArrived);
    FromProvisionArrived(s2, i, reg);
    OneStepBack(s1, AgentDo(i, SendProvision), i, reg);
    OneStepBack(s, AgentDo(i, Boot(0)), i, reg);
  }

  /**
   * In every reachable state an agent can still come online exactly when it is not stuck, both when
   * register_serial may be called from then on (`reg`) and when it may not.
   */
  lemma ComesOnlineIffNotStuck(steps: seq<Step>, i: nat, reg: bool)
    requires i < |Run(INIT, steps).agents|
    ensures var s := Run(INIT, steps); CanComeOnline(s, i, reg) <==> !Stuck(s.server, s.agents[i], reg)
  {
    RunKeepsInv(INIT, steps);
    var s := Run(INIT, steps);
    var a := s.agents[i];
    assert AgentOk(s.server, a);
    if Stuck(s.server, a, reg) {
      forall more: seq<Step> ensures !Leads(s, i, reg, more) {
        if forall step :: step in more ==> Allowed(step, reg) {
          StuckForever(s, more, i, reg);
        }
      }
    } else if a.pc.EnrollReceived? {
      FromEnrollReceived(s, i, reg);
    } else if a.disk.opCert.Some? {
      FromStoredIdentity(s, i, reg);
    } else if HasDevice(s.server.tables, a.serial) {
      FromReply(s, i, reg);
    } else if a.disk.deviceCert.Some? {
      FromDeviceCert(s, i, reg);
    } else if a.pc.ProvisionReceived? {
      FromProvisionReceived(s, i, reg);
    } else if a.pc.ProvisionWaiting? && a.pc.r < |s.server.prov|
        && (s.server.prov[a.pc.r].phase.ProvClaimed? || s.server.prov[a.pc.r].phase.ProvReplied?) {
      FromProvisionClaimed(s, i, reg);
    } else {
      FromSpendableToken(s, i, reg);
    }
  }
}
