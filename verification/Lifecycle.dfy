/**
 * Device lifecycle, phases 0 to 2: one server, any number of agents. Agents may stop between any two
 * file writes, any reply may be lost, the server may crash, and other clients may send anything.
 */
module Lifecycle {
  import opened Prelude
  import opened Pki
  import opened DeviceTables
  import opened ServerProtocol
  import opened AgentDisk

  /** Where the agent process is; `Down` is a process that is not running. */
  datatype Pc =
    | Down
    | ProvisionReady(csr: Csr)
    | ProvisionWaiting(r: nat)
    | ProvisionReceived(cert: Cert)
    | PhaseTwo
    | EnrollReady(peer: Cert, csr: Csr)
    | EnrollWaiting(r: nat)
    | EnrollReceived(resp: EnrollResponse, written: nat)
    | PhaseThree
    | Online(id: string, cert: Cert, key: Key)

  datatype Agent = Agent(serial: string, token: string, firmware: string, disk: Disk, pc: Pc)

  datatype State = State(server: Server, agents: seq<Agent>)

  const INIT := State(START, [])

  datatype AgentStep =
    | Boot(key: Key)
    | SendProvision
    | ReceiveProvision
    | StoreDeviceCert
    | BeginEnroll(key: Key)
    | SendEnroll
    | ReceiveEnroll
    | StoreNext
    | GoOnline
    | Stop

  datatype Step =
    | ServerDo(st: ServerStep)
    | AddAgent(serial: string, token: string, firmware: string)
    | AgentDo(a: nat, act: AgentStep)

  const FLEET_CA := "fleet-ca-chain"

  /** The request an agent step puts on the wire, if it sends one. */
  function Sends(a: Agent, act: AgentStep): Option<ServerStep> {
    if act.SendProvision? && a.pc.ProvisionReady? then Some(ArriveProv(a.serial, a.pc.csr, a.token))
    else if act.SendEnroll? && a.pc.EnrollReady? then
      Some(ArriveEnroll(Some(a.pc.peer), a.serial, a.pc.csr, a.firmware))
    else None
  }

  /** What the agent does, given the server's requests as they stand when it acts. */
  function AgentNext(v: Server, a: Agent, act: AgentStep): Agent {
    match act
    case Boot(key) =>
      if !a.pc.Down? then a
      else if a.disk.deviceCert.Some? then a.(pc := PhaseTwo)
      else a.(disk := Apply(a.disk, DeviceKey(key)), pc := ProvisionReady(Csr(a.serial, key)))
    case SendProvision => if a.pc.ProvisionReady? then a.(pc := ProvisionWaiting(|v.prov|)) else a
    case ReceiveProvision =>
      if a.pc.ProvisionWaiting? && a.pc.r < |v.prov| && v.prov[a.pc.r].phase.ProvReplied?
      then a.(pc := ProvisionReceived(v.prov[a.pc.r].phase.cert)) else a
    case StoreDeviceCert =>
      if a.pc.ProvisionReceived? then a.(disk := Apply(a.disk, DeviceCert(a.pc.cert)), pc := PhaseTwo) else a
    case BeginEnroll(key) =>
      if !a.pc.PhaseTwo? then a
      else if a.disk.opCert.Some? then a.(pc := PhaseThree)
      else if a.disk.deviceCert.None? || a.disk.deviceKey.None? then a.(pc := Down)
      else a.(disk := Apply(a.disk, OpKey(key)), pc := EnrollReady(a.disk.deviceCert.value, Csr(a.serial, key)))
    case SendEnroll => if a.pc.EnrollReady? then a.(pc := EnrollWaiting(|v.enroll|)) else a
    case ReceiveEnroll =>
      if a.pc.EnrollWaiting? && a.pc.r < |v.enroll| && v.enroll[a.pc.r].phase.Replied?
      then
        var phase := v.enroll[a.pc.r].phase;
        a.(pc := EnrollReceived(EnrollResponse(phase.id, phase.cert, FLEET_CA), 0))
      else a
    case StoreNext =>
      if !a.pc.EnrollReceived? then a
      else if a.pc.written < 3 then
        a.(disk := Apply(a.disk, EnrollWrites(a.pc.resp)[a.pc.written]), pc := a.pc.(written := a.pc.written + 1))
      else a.(pc := PhaseThree)
    case GoOnline =>
      if !a.pc.PhaseThree? then a
      else if a.disk.opCert.Some? && a.disk.opKey.Some? && a.disk.deviceId.Some?
      then a.(pc := Online(a.disk.deviceId.value, a.disk.opCert.value, a.disk.opKey.value))
      else a.(pc := Down)
    case Stop => a.(pc := Down)
  }

  function Next(s: State, step: Step): State {
    match step
    case ServerDo(st) => s.(server := ServerNext(s.server, st))
    case AddAgent(serial, token, firmware) => s.(agents := s.agents + [Agent(serial, token, firmware, BLANK, Down)])
    case AgentDo(i, act) =>
      if i < |s.agents| then
        State(match Sends(s.agents[i], act) case None => s.server case Some(st) => ServerNext(s.server, st),
              s.agents[i := AgentNext(s.server, s.agents[i], act)])
      else s
  }

  function Run(s: State, steps: seq<Step>): State
    decreases |steps|
  {
    if steps == [] then s else Run(Next(s, steps[0]), steps[1..])
  }

  // ── Files never run ahead of the server ─────────────────────────────────────

  ghost predicate IsRow(t: Tables, id: string, serial: string, cert: Cert) {
    id in t.devices && t.devices[id].serial == serial && t.devices[id].cert == cert
  }

  ghost predicate StoredFor(t: Tables, serial: string, cert: Cert) {
    exists id :: IsRow(t, id, serial, cert)
  }

  /** Every credential on disk pairs with its key and is backed by the server's tables. */
  ghost predicate FilesBacked(t: Tables, a: Agent) {
    var d := a.disk;
    && (d.deviceCert.Some? ==>
          && d.deviceKey == Some(d.deviceCert.value.key)
          && d.deviceCert.value.cn == a.serial && d.deviceCert.value.issuer == DeviceCa
          && Provisioned(t, a.serial))
    && (d.opCert.Some? ==>
          && d.deviceCert.Some? && d.opKey == Some(d.opCert.value.key)
          && d.opCert.value.cn == a.serial && d.opCert.value.issuer == FleetCa
          && StoredFor(t, a.serial, d.opCert.value))
    && (d.deviceId.Some? ==> d.opCert.Some? && IsRow(t, d.deviceId.value, a.serial, d.opCert.value))
    && (a.pc.Online? ==>
          && IsRow(t, a.pc.id, a.serial, a.pc.cert) && a.pc.key == a.pc.cert.key
          && a.pc.cert.cn == a.serial && a.pc.cert.issuer == FleetCa)
  }

  ghost predicate PcOk(v: Server, a: Agent) {
    var d := a.disk;
    match a.pc
    case Down => true
    case ProvisionReady(csr) => d.deviceCert.None? && d.deviceKey.Some? && csr == Csr(a.serial, d.deviceKey.value)
    case ProvisionWaiting(r) =>
      && d.deviceCert.None? && d.deviceKey.Some?
      && r < |v.prov| && v.prov[r].serial == a.serial && v.prov[r].token == a.token
      && v.prov[r].csr == Csr(a.serial, d.deviceKey.value)
    case ProvisionReceived(cert) =>
      && d.deviceCert.None? && d.deviceKey == Some(cert.key)
      && cert.cn == a.serial && cert.issuer == DeviceCa && Provisioned(v.tables, a.serial)
    case PhaseTwo => d.deviceCert.Some?
    case EnrollReady(peer, csr) =>
      && d.opCert.None? && d.deviceCert == Some(peer)
      && d.opKey.Some? && csr == Csr(a.serial, d.opKey.value)
    case EnrollWaiting(r) =>
      && d.opCert.None? && d.deviceCert.Some? && d.opKey.Some? && r < |v.enroll|
      && SerialOf(v.enroll[r]) == a.serial && v.enroll[r].csr == Csr(a.serial, d.opKey.value)
    case EnrollReceived(resp, written) =>
      && written <= 3 && d.deviceCert.Some? && d.opKey == Some(resp.cert.key)
      && resp.cert.cn == a.serial && resp.cert.issuer == FleetCa
      && IsRow(v.tables, resp.id, a.serial, resp.cert)
      && (if written == 0 then d.opCert.None? else d.opCert == Some(resp.cert))
      && (written == 3 ==> d.deviceId.Some?)
    case PhaseThree => d.opCert.Some?
    case Online(id, cert, _) => d.deviceId == Some(id) && d.opCert == Some(cert)
  }

  ghost predicate AgentOk(v: Server, a: Agent) {
    FilesBacked(v.tables, a) && PcOk(v, a)
  }

  ghost predicate Inv(s: State) {
    && ServerInv(s.server)
    && (forall i :: 0 <= i < |s.agents| ==> AgentOk(s.server, s.agents[i]))
  }

  lemma ServerStepKeepsAgent(v: Server, st: ServerStep, a: Agent)
    requires AgentOk(v, a)
    ensures AgentOk(ServerNext(v, st), a)
  {
    var v' := ServerNext(v, st);
    StepGrowsTables(v, st);
    StepGrowsRequests(v, st);
    if a.disk.opCert.Some? {
      var id :| IsRow(v.tables, id, a.serial, a.disk.opCert.value);
      assert IsRow(v'.tables, id, a.serial, a.disk.opCert.value);
    }
  }

  /** Writing a file is the business of four steps, going online of one. */
  lemma OthersLeaveFiles(v: Server, a: Agent, act: AgentStep)
    requires !act.Boot? && !act.StoreDeviceCert? && !act.BeginEnroll? && !act.StoreNext? && !act.GoOnline?
    ensures AgentNext(v, a, act).disk == a.disk
    ensures AgentNext(v, a, act).pc.Online? ==> AgentNext(v, a, act) == a
    ensures AgentNext(v, a, act).serial == a.serial
  {
  }

  lemma StoreNextKeepsFiles(v: Server, a: Agent)
    requires AgentOk(v, a)
    ensures FilesBacked(v.tables, AgentNext(v, a, StoreNext))
  {
    if a.pc.EnrollReceived? {
      assert IsRow(v.tables, a.pc.resp.id, a.serial, a.pc.resp.cert);
    }
  }

  lemma KeyFilesKeepFiles(v: Server, a: Agent, key: Key)
    requires AgentOk(v, a)
    ensures FilesBacked(v.tables, AgentNext(v, a, Boot(key)))
    ensures FilesBacked(v.tables, AgentNext(v, a, BeginEnroll(key)))
  {
  }

  lemma AgentStepKeepsFiles(v: Server, a: Agent, act: AgentStep)
    requires AgentOk(v, a)
    ensures FilesBacked(v.tables, AgentNext(v, a, act))
  {
    match act
    case Boot(key) => KeyFilesKeepFiles(v, a, key);
    case BeginEnroll(key) => KeyFilesKeepFiles(v, a, key);
    case StoreNext => StoreNextKeepsFiles(v, a);
    case StoreDeviceCert =>
    case GoOnline =>
    case _ => OthersLeaveFiles(v, a, act);
  }

  lemma AgentStepsKeepPc(v: Server, a: Agent)
    requires ServerInv(v) && AgentOk(v, a)
    ensures forall act :: Sends(a, act).None? ==> PcOk(v, AgentNext(v, a, act))
  {
    if a.pc.ProvisionWaiting? {
      assert ProvOk(v, a.pc.r);
    }
    if a.pc.EnrollWaiting? {
      assert EnrollOk(v, a.pc.r);
    }
  }

  /** A sending agent waits on the request that its own step put at the end of the queue. */
  lemma SendKeepsPc(v: Server, a: Agent, act: AgentStep)
    requires AgentOk(v, a) && Sends(a, act).Some?
    ensures ServerNext(v, Sends(a, act).value).tables == v.tables
    ensures PcOk(ServerNext(v, Sends(a, act).value), AgentNext(v, a, act))
  {
  }

  lemma StepKeepsInv(s: State, step: Step)
    requires Inv(s)
    ensures Inv(Next(s, step))
  {
    var s' := Next(s, step);
    match step
    case ServerDo(st) =>
      ServerStepKeepsInv(s.server, st);
      forall i | 0 <= i < |s'.agents| ensures AgentOk(s'.server, s'.agents[i]) {
        ServerStepKeepsAgent(s.server, st, s.agents[i]);
      }
    case AddAgent(_, _, _) =>
    case AgentDo(i, act) =>
      if i < |s.agents| {
        AgentStepKeepsFiles(s.server, s.agents[i], act);
        var sent := Sends(s.agents[i], act);
        if sent.None? {
          AgentStepsKeepPc(s.server, s.agents[i]);
        } else {
          SendKeepsPc(s.server, s.agents[i], act);
          ServerStepKeepsInv(s.server, sent.value);
          forall j | 0 <= j < |s'.agents| && j != i ensures AgentOk(s'.server, s'.agents[j]) {
            ServerStepKeepsAgent(s.server, sent.value, s.agents[j]);
          }
        }
      }
  }

  lemma {:induction false} RunKeepsInv(s: State, steps: seq<Step>)
    requires Inv(s)
    ensures Inv(Run(s, steps))
    decreases |steps|
  {
    if steps != [] {
      StepKeepsInv(s, steps[0]);
      RunKeepsInv(Next(s, steps[0]), steps[1..]);
    }
  }

  /**
   * In every reachable state: device.pem pairs with device.key and its serial is provisioned;
   * operational.pem pairs with operational.key and is the certificate of the one row with that serial;
   * device-id is that row's id; and an agent that is online uses exactly those.
   */
  lemma FilesNeverRunAhead(steps: seq<Step>)
    ensures var s := Run(INIT, steps);
            && UniqueSerials(s.server.tables)
            && (forall i :: 0 <= i < |s.agents| ==> FilesBacked(s.server.tables, s.agents[i]))
  {
    RunKeepsInv(INIT, steps);
  }

  // ── The server inside a lifecycle run ───────────────────────────────────────

  /** The server steps of a run: its own and the arrivals the agents cause. */
  function Projected(s: State, steps: seq<Step>): seq<ServerStep>
    decreases |steps|
  {
    if steps == [] then []
    else
      (match steps[0]
       case ServerDo(st) => [st]
       case AddAgent(_, _, _) => []
       case AgentDo(i, act) =>
         if i < |s.agents| && Sends(s.agents[i], act).Some? then [Sends(s.agents[i], act).value] else [])
      + Projected(Next(s, steps[0]), steps[1..])
  }

  /** So every result about server runs holds for the server of a lifecycle run. */
  lemma {:induction false} ServerOfRun(s: State, steps: seq<Step>)
    ensures Run(s, steps).server == ServerRun(s.server, Projected(s, steps))
    ensures (forall st :: ServerDo(st) in steps ==> !st.Register?) ==>
              forall st :: st in Projected(s, steps) ==> !st.Register?
    decreases |steps|
  {
    if steps != [] {
      var s' := Next(s, steps[0]);
      ServerOfRun(s', steps[1..]);
      var rest := Projected(s', steps[1..]);
      var st := steps[0];
      if st.ServerDo? {
        assert ([st.st] + rest)[1..] == rest;
      } else if st.AgentDo? && st.a < |s.agents| && Sends(s.agents[st.a], st.act).Some? {
        assert ([Sends(s.agents[st.a], st.act).value] + rest)[1..] == rest;
      } else {
        assert [] + rest == rest;
      }
    }
  }
}
