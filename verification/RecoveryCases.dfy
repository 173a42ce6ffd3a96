/**
 * Every kind of stuck agent is reached. One robot, seeded and switched on once: what the server answers and
 * when the power fails is chosen case by case.
 */
module RecoveryCases {
  import opened Prelude
  import opened Pki
  import opened DeviceTables
  import opened ServerProtocol
  import opened AgentDisk
  import opened AgentProgram
  import opened AgentRefinement
  import opened Lifecycle
  import opened AgentCoverage
  import opened Claims
  import opened Recovery

  function Fresh(serial: string, token: string): Agent {
    Agent(serial, token, "", BLANK, Down)
  }

  function Seeded(serial: string, token: string): Server {
    ServerNext(START, Seed(serial, "", token))
  }

  /** The robot's first start-up, as a run from the empty system. */
  lemma FirstStartUp(serial: string, token: string, u: StartUp, w: World) returns (steps: seq<Step>)
    requires Answered(Seeded(serial, token), Fresh(serial, token), u, w)
    ensures Run(INIT, steps) ==
                State(ServerAfter(Seeded(serial, token), Fresh(serial, token), u, w),
                      [Finished(Fresh(serial, token), u)])
  {
    var add, seed := AddAgent(serial, token, ""), ServerDo(Seed(serial, "", token));
    var s := Next(Next(INIT, add), seed);
    assert s == State(Seeded(serial, token), [Fresh(serial, token)]);
    var rest := ProgramIsProtocol(s, 0, u, w);
    steps := [add] + ([seed] + rest);
    assert steps[1..] == [seed] + rest && ([seed] + rest)[1..] == rest;
  }

  // ── The provisioning reply is lost ──────────────────────────────────────────

  /** The token is spent and nobody has the certificate. */
  lemma LostProvisioningReply(serial: string, token: string, reg: bool)
    requires serial != "" && token != ""
    ensures exists steps ::
              var s := Run(INIT, steps);
              && |s.agents| == 1 && ProvisioningStuck(s.server, s.agents[0]) && !CanComeOnline(s, 0, reg)
  {
    var u, w := StartUp(0, None, 0, None, 1), World(true, [ClaimProv(0, 0)], false, []);
    var v := ServerNext(Seeded(serial, token), ArriveProv(serial, Csr(serial, 0), token));
    RunOfOne(v, ClaimProv(0, 0));
    var steps := FirstStartUp(serial, token, u, w);
    assert Provisioned(Run(INIT, steps).server.tables, serial);
    CutByPhase(BLANK, u);
    ProvisionFields(BLANK, u.key1, u.reply1, u.power);
    ComesOnlineIffNotStuck(steps, 0, reg);
  }

  // ── Stopped in phase 2 ──────────────────────────────────────────────────────

  function DevicePem(serial: string): Cert {
    Cert(serial, 0, DeviceCa, 0)
  }

  function OperationalPem(serial: string): Cert {
    Cert(serial, 1, FleetCa, 1)
  }

  /** The server once the robot has its device certificate. */
  function Provisioned1(serial: string, token: string): Server {
    ServerRun(ServerNext(Seeded(serial, token), ArriveProv(serial, Csr(serial, 0), token)),
              [ClaimProv(0, 0), SignProv(0)])
  }

  lemma ProvisionedState(serial: string, token: string)
    requires serial != "" && token != ""
    ensures var v := Provisioned1(serial, token);
            && |v.prov| == 1 && v.prov[0].phase == ProvReplied(DevicePem(serial)) && v.stamp == 1 && v.enroll == []
            && v.tables.devices == map[] && serial in v.tables.pre && !v.tables.pre[serial].claimed
  {
    RunOfTwo(ServerNext(Seeded(serial, token), ArriveProv(serial, Csr(serial, 0), token)), ClaimProv(0, 0),
             SignProv(0));
  }

  lemma ClaimedState(serial: string, token: string)
    requires serial != "" && token != ""
    ensures var v := ServerRun(EnrollmentSent(Provisioned1(serial, token), Fresh(serial, token), DevicePem(serial), 1),
                               [ClaimEnroll(0)]);
            && |v.enroll| == 1 && v.enroll[0].phase.Claimed? && v.enroll[0].csr == Csr(serial, 1) && v.stamp == 1
            && SerialOf(v.enroll[0]) == serial && v.tables.devices == map[] && IsClaimed(v.tables, serial)
  {
    ProvisionedState(serial, token);
    var v := EnrollmentSent(Provisioned1(serial, token), Fresh(serial, token), DevicePem(serial), 1);
    assert v.enroll == [EnrollRequest(Some(DevicePem(serial)), serial, Csr(serial, 1), "", Arrived)];
    RunOfOne(v, ClaimEnroll(0));
  }

  lemma SignedAndCreated(v: Server, serial: string, id: string)
    requires |v.enroll| == 1 && v.enroll[0].phase.Claimed? && v.enroll[0].csr == Csr(serial, 1) && v.stamp == 1
    requires SerialOf(v.enroll[0]) == serial && v.tables.devices == map[]
    ensures var v' := ServerNext(ServerNext(v, SignEnroll(0)), CreateEnroll(0, id, 0));
            && |v'.enroll| == 1 && v'.enroll[0].phase == Replied(id, OperationalPem(serial))
            && HasDevice(v'.tables, serial)
  {
    var v1 := ServerNext(v, SignEnroll(0));
    assert v1.enroll[0].phase == Signed(v.enroll[0].phase.model, OperationalPem(serial));
    var v2 := ServerNext(v1, CreateEnroll(0, id, 0));
    assert id in v2.tables.devices && v2.tables.devices[id].serial == serial;
  }

  lemma EnrolledState(serial: string, token: string, id: string)
    requires serial != "" && token != ""
    ensures var v := ServerRun(EnrollmentSent(Provisioned1(serial, token), Fresh(serial, token), DevicePem(serial), 1),
                               [ClaimEnroll(0)] + [SignEnroll(0), CreateEnroll(0, id, 0)]);
            && |v.enroll| == 1 && v.enroll[0].phase == Replied(id, OperationalPem(serial))
            && HasDevice(v.tables, serial)
  {
    ClaimedState(serial, token);
    var v := EnrollmentSent(Provisioned1(serial, token), Fresh(serial, token), DevicePem(serial), 1);
    var v1 := ServerRun(v, [ClaimEnroll(0)]);
    RunOfOne(v, ClaimEnroll(0));
    assert ([ClaimEnroll(0)] + [SignEnroll(0), CreateEnroll(0, id, 0)])[1..] == [SignEnroll(0), CreateEnroll(0, id, 0)];
    RunOfTwo(v1, SignEnroll(0), CreateEnroll(0, id, 0));
    SignedAndCreated(v1, serial, id);
  }

  /** Provisioned, then `power - 2` files of phase 2. */
  function Interrupted(serial: string, reply2: Option<EnrollResponse>, power: nat): StartUp {
    StartUp(0, Some(DevicePem(serial)), 1, reply2, power)
  }

  function Heard(w2: seq<ServerStep>): World {
    World(true, [ClaimProv(0, 0), SignProv(0)], true, w2)
  }

  lemma InterruptedDisk(serial: string, reply2: Option<EnrollResponse>, power: nat)
    requires power == 3 || (power == 4 && reply2.Some?)
    ensures var d := After(BLANK, Interrupted(serial, reply2, power));
            && d.deviceCert == Some(DevicePem(serial)) && d.deviceId.None?
            && d.opCert == (if power == 3 then None else Some(reply2.value.cert))
  {
    var u := Interrupted(serial, reply2, power);
    CutByPhase(BLANK, u);
    ProvisionFields(BLANK, u.key1, u.reply1, 2);
    assert Cut(PhaseOne(BLANK, u), 2) == PhaseOne(BLANK, u);
    EnrollFields(ApplyAll(BLANK, PhaseOne(BLANK, u)), 1, reply2, power - 2);
  }

  /** The robot's life up to that point. */
  lemma InterruptedRun(serial: string, token: string, reply2: Option<EnrollResponse>, power: nat,
                       w2: seq<ServerStep>)
    requires serial != "" && token != "" && power >= 3
    requires var v1 := EnrollmentSent(Provisioned1(serial, token), Fresh(serial, token), DevicePem(serial), 1);
             var v2 := ServerRun(v1, w2);
             reply2.None? ||
             (|v2.enroll| > 0 && v2.enroll[0].phase.Replied?
              && reply2.value == EnrollResponse(v2.enroll[0].phase.id, v2.enroll[0].phase.cert, FLEET_CA))
    ensures var v1 := EnrollmentSent(Provisioned1(serial, token), Fresh(serial, token), DevicePem(serial), 1);
            exists steps :: Run(INIT, steps) ==
              State(ServerRun(v1, w2), [Finished(Fresh(serial, token), Interrupted(serial, reply2, power))])
  {
    ProvisionedState(serial, token);
    var u := Interrupted(serial, reply2, power);
    ProvisionFields(BLANK, u.key1, u.reply1, power);
    assert Cut(PhaseOne(BLANK, u), power) == PhaseOne(BLANK, u);
    var steps := FirstStartUp(serial, token, u, Heard(w2));
  }

  /** Stopped while the server holds the claim: offline for ever, unless the operator reopens the claim. */
  lemma StopLosesClaim(serial: string, token: string)
    requires serial != "" && token != ""
    ensures exists steps ::
              var s := Run(INIT, steps);
              && |s.agents| == 1 && ClaimLost(s.server, s.agents[0])
              && !CanComeOnline(s, 0, false) && CanComeOnline(s, 0, true)
              && Stage(ServerNext(s.server, Register(serial, "")).tables, serial) < Stage(s.server.tables, serial)
  {
    InterruptedRun(serial, token, None, 3, [ClaimEnroll(0)]);
    InterruptedDisk(serial, None, 3);
    ClaimedState(serial, token);
    var v1 := EnrollmentSent(Provisioned1(serial, token), Fresh(serial, token), DevicePem(serial), 1);
    var steps :| Run(INIT, steps) ==
      State(ServerRun(v1, [ClaimEnroll(0)]), [Finished(Fresh(serial, token), Interrupted(serial, None, 3))]);
    ComesOnlineIffNotStuck(steps, 0, false);
    ComesOnlineIffNotStuck(steps, 0, true);
    var v := Run(INIT, steps).server;
    StageFallsOnlyOnReopening(v, Register(serial, ""), serial);
  }

  /** The enrollment reply is lost: the one device row is there and nobody has its certificate. */
  lemma LostEnrollmentReply(serial: string, token: string, id: string, reg: bool)
    requires serial != "" && token != ""
    ensures exists steps ::
              var s := Run(INIT, steps);
              && |s.agents| == 1 && EnrollmentStuck(s.server, s.agents[0]) && !CanComeOnline(s, 0, reg)
  {
    var w2 := [ClaimEnroll(0)] + [SignEnroll(0), CreateEnroll(0, id, 0)];
    InterruptedRun(serial, token, None, 3, w2);
    InterruptedDisk(serial, None, 3);
    EnrolledState(serial, token, id);
    var v1 := EnrollmentSent(Provisioned1(serial, token), Fresh(serial, token), DevicePem(serial), 1);
    var steps :| Run(INIT, steps) ==
      State(ServerRun(v1, w2), [Finished(Fresh(serial, token), Interrupted(serial, None, 3))]);
    ComesOnlineIffNotStuck(steps, 0, reg);
  }

  /** Stopped between operational.pem and device-id: enrolled on both sides, and never online. */
  lemma StopLosesIdentity(serial: string, token: string, id: string, reg: bool)
    requires serial != "" && token != ""
    ensures exists steps ::
              var s := Run(INIT, steps);
              && |s.agents| == 1 && IdentityLost(s.agents[0]) && HasDevice(s.server.tables, serial)
              && !CanComeOnline(s, 0, reg)
  {
    var w2 := [ClaimEnroll(0)] + [SignEnroll(0), CreateEnroll(0, id, 0)];
    var reply := Some(EnrollResponse(id, OperationalPem(serial), FLEET_CA));
    EnrolledState(serial, token, id);
    InterruptedRun(serial, token, reply, 4, w2);
    InterruptedDisk(serial, reply, 4);
    var v1 := EnrollmentSent(Provisioned1(serial, token), Fresh(serial, token), DevicePem(serial), 1);
    var steps :| Run(INIT, steps) ==
      State(ServerRun(v1, w2), [Finished(Fresh(serial, token), Interrupted(serial, reply, 4))]);
    ComesOnlineIffNotStuck(steps, 0, reg);
  }
}
