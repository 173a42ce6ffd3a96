/**
 * The other inclusion: whatever the start-up program does, with any answers the server gives and any power
 * failure, the agent of the lifecycle protocol can do too. So the protocol's safety holds of the program.
 */
module AgentCoverage {
  import opened Prelude
  import opened Pki
  import opened ServerProtocol
  import opened AgentDisk
  import opened AgentProgram
  import opened AgentRefinement
  import opened Lifecycle

  // ── One agent and the server ────────────────────────────────────────────────

  datatype Local = Srv(st: ServerStep) | Own(act: AgentStep)

  datatype Pair = Pair(v: Server, a: Agent)

  function LocalNext(p: Pair, l: Local): Pair {
    match l
    case Srv(st) => Pair(ServerNext(p.v, st), p.a)
    case Own(act) =>
      var v := match Sends(p.a, act) case None => p.v case Some(st) => ServerNext(p.v, st);
      Pair(v, AgentNext(p.v, p.a, act))
  }

  function LocalRun(p: Pair, ls: seq<Local>): Pair
    decreases |ls|
  {
    if ls == [] then p else LocalRun(LocalNext(p, ls[0]), ls[1..])
  }

  lemma First(p: Pair, l: Local, ls: seq<Local>) returns (all: seq<Local>)
    ensures LocalRun(p, all) == LocalRun(LocalNext(p, l), ls)
  {
    all := [l] + ls;
    assert all[1..] == ls;
  }

  lemma {:induction false} Join(p: Pair, ls: seq<Local>, more: seq<Local>) returns (all: seq<Local>)
    ensures LocalRun(p, all) == LocalRun(LocalRun(p, ls), more)
    decreases |ls|
  {
    if ls == [] {
      all := more;
    } else {
      all := Join(LocalNext(p, ls[0]), ls[1..], more);
      all := First(p, ls[0], all);
    }
  }

  lemma {:induction false} Serve(p: Pair, w: seq<ServerStep>) returns (ls: seq<Local>)
    ensures LocalRun(p, ls) == Pair(ServerRun(p.v, w), p.a)
    decreases |w|
  {
    ls := [];
    if w != [] {
      ls := Serve(LocalNext(p, Srv(w[0])), w[1..]);
      ls := First(p, Srv(w[0]), ls);
    }
  }

  lemma One(p: Pair, act: AgentStep) returns (ls: seq<Local>)
    ensures LocalRun(p, ls) == LocalNext(p, Own(act))
  {
    ls := First(p, Own(act), []);
  }

  function Lifted(i: nat, l: Local): Step {
    match l
    case Srv(st) => ServerDo(st)
    case Own(act) => AgentDo(i, act)
  }

  /** A run of one agent and the server is a run of the protocol in which the other agents rest. */
  lemma {:induction false} Lift(s: State, i: nat, ls: seq<Local>) returns (steps: seq<Step>)
    requires i < |s.agents|
    ensures var p := LocalRun(Pair(s.server, s.agents[i]), ls);
            Run(s, steps) == State(p.v, s.agents[i := p.a])
    decreases |ls|
  {
    steps := [];
    if ls != [] {
      var s' := Next(s, Lifted(i, ls[0]));
      steps := Lift(s', i, ls[1..]);
      assert ([Lifted(i, ls[0])] + steps)[1..] == steps;
      steps := [Lifted(i, ls[0])] + steps;
    }
  }

  // ── What the server does meanwhile ──────────────────────────────────────────

  /**
   * For each phase, whether its request leaves the robot and what the server then does, other clients'
   * requests included, until the answer is read, the power fails or the program gives up.
   */
  datatype World = World(sent1: bool, w1: seq<ServerStep>, sent2: bool, w2: seq<ServerStep>)

  function PhaseOneServer(v: Server, a: Agent, u: StartUp, w: World): Server {
    ServerRun(if w.sent1 && a.disk.deviceCert.None? && u.power >= 1
              then ServerNext(v, ArriveProv(a.serial, Csr(a.serial, u.key1), a.token)) else v, w.w1)
  }

  /** `n` is the number of writes left when phase 2 begins on disk `d`. */
  function PhaseTwoServer(v: Server, a: Agent, d: Disk, n: int, u: StartUp, w: World): Server {
    ServerRun(if w.sent2 && n >= 1 && EnrollPhaseWrites(d, u.key2, u.reply2) != []
              then ServerNext(v, ArriveEnroll(d.deviceCert, a.serial, Csr(a.serial, u.key2), a.firmware)) else v, w.w2)
  }

  function ServerAfter(v: Server, a: Agent, u: StartUp, w: World): Server {
    PhaseTwoServer(PhaseOneServer(v, a, u, w), a, ApplyAll(a.disk, PhaseOne(a.disk, u)),
                   u.power - |PhaseOne(a.disk, u)|, u, w)
  }

  predicate AnsweredOne(v: Server, a: Agent, u: StartUp, w: World) {
    a.disk.deviceCert.None? && u.reply1.Some? && u.power >= 2 ==>
      var v1 := PhaseOneServer(v, a, u, w);
      w.sent1 && |v.prov| < |v1.prov| && v1.prov[|v.prov|].phase == ProvReplied(u.reply1.value)
  }

  predicate AnsweredTwo(v: Server, a: Agent, d: Disk, n: int, u: StartUp, w: World) {
    EnrollPhaseWrites(d, u.key2, u.reply2) != [] && u.reply2.Some? && n >= 2 ==>
      var v2 := PhaseTwoServer(v, a, d, n, u, w);
      && w.sent2 && |v.enroll| < |v2.enroll| && v2.enroll[|v.enroll|].phase.Replied?
      && u.reply2.value == EnrollResponse(v2.enroll[|v.enroll|].phase.id, v2.enroll[|v.enroll|].phase.cert, FLEET_CA)
  }

  /** The answers the program reads are the ones the server put to its requests. */
  predicate Answered(v: Server, a: Agent, u: StartUp, w: World) {
    && AnsweredOne(v, a, u, w)
    && AnsweredTwo(PhaseOneServer(v, a, u, w), a, ApplyAll(a.disk, PhaseOne(a.disk, u)),
                   u.power - |PhaseOne(a.disk, u)|, u, w)
  }

  // ── Phase 1 ─────────────────────────────────────────────────────────────────

  predicate PassesOne(d: Disk, u: StartUp) {
    d.deviceCert.Some? || (u.reply1.Some? && u.power >= 2)
  }

  function AfterPhaseOne(a: Agent, u: StartUp): Agent {
    a.(disk := ApplyAll(a.disk, Cut(PhaseOne(a.disk, u), u.power)),
       pc := if PassesOne(a.disk, u) then PhaseTwo else Down)
  }

  /** The certificate arrives and is stored, or the agent stops waiting. */
  lemma EndOfPhaseOne(v: Server, a: Agent, d: Disk, u: StartUp, r: nat) returns (ls: seq<Local>)
    requires a.disk == Apply(d, DeviceKey(u.key1)) && d.deviceCert.None? && u.power >= 1
    requires u.reply1.Some? && u.power >= 2 ==>
               a.pc == ProvisionWaiting(r) && r < |v.prov| && v.prov[r].phase == ProvReplied(u.reply1.value)
    ensures LocalRun(Pair(v, a), ls) == Pair(v, AfterPhaseOne(a.(disk := d), u))
  {
    ProvisionFields(d, u.key1, u.reply1, u.power);
    if u.reply1.Some? && u.power >= 2 {
      var p := LocalNext(Pair(v, a), Own(ReceiveProvision));
      ls := One(p, StoreDeviceCert);
      ls := First(Pair(v, a), Own(ReceiveProvision), ls);
    } else {
      ls := One(Pair(v, a), Stop);
    }
  }

  lemma CoverPhaseOne(v: Server, a: Agent, u: StartUp, w: World) returns (ls: seq<Local>)
    requires a.pc.Down? && AnsweredOne(v, a, u, w)
    ensures LocalRun(Pair(v, a), ls) == Pair(PhaseOneServer(v, a, u, w), AfterPhaseOne(a, u))
  {
    var v1 := PhaseOneServer(v, a, u, w);
    if a.disk.deviceCert.Some? {
      ls := Serve(Pair(v, a), w.w1);
      var boot := One(Pair(v1, a), Boot(u.key1));
      ls := Join(Pair(v, a), ls, boot);
    } else if u.power == 0 {
      ls := Serve(Pair(v, a), w.w1);
    } else {
      var booted := LocalNext(Pair(v, a), Own(Boot(u.key1)));
      var p := if w.sent1 then LocalNext(booted, Own(SendProvision)) else booted;
      ls := Serve(p, w.w1);
      var end := EndOfPhaseOne(v1, p.a, a.disk, u, |v.prov|);
      ls := Join(p, ls, end);
      if w.sent1 {
        ls := First(booted, Own(SendProvision), ls);
      }
      ls := First(Pair(v, a), Own(Boot(u.key1)), ls);
    }
  }

  // ── Phases 2 and 3 ──────────────────────────────────────────────────────────

  /** What phase 3 finds on disk decides. */
  function PhaseThreeEnd(d: Disk): Pc {
    if d.opCert.Some? && d.opKey.Some? && d.deviceId.Some?
    then Online(d.deviceId.value, d.opCert.value, d.opKey.value) else Down
  }

  /** Storing the answer, from its `k`-th file on, with power for `m` more writes. */
  lemma {:induction false} CoverStores(v: Server, a: Agent, resp: EnrollResponse, k: nat, m: nat)
    returns (ls: seq<Local>)
    requires k <= 3 && a.pc == EnrollReceived(resp, k)
    ensures var d := ApplyAll(a.disk, Cut(EnrollWrites(resp)[k..], m));
            LocalRun(Pair(v, a), ls) == Pair(v, a.(disk := d, pc := if m >= 3 - k then PhaseThreeEnd(d) else Down))
    decreases 3 - k
  {
    var ws := EnrollWrites(resp)[k..];
    if k == 3 {
      var p := LocalNext(Pair(v, a), Own(StoreNext));
      ls := One(p, GoOnline);
      ls := First(Pair(v, a), Own(StoreNext), ls);
      assert ws == [];
    } else if m == 0 {
      ls := One(Pair(v, a), Stop);
      assert Cut(ws, m) == [];
    } else {
      var p := LocalNext(Pair(v, a), Own(StoreNext));
      ls := CoverStores(v, p.a, resp, k + 1, m - 1);
      ls := First(Pair(v, a), Own(StoreNext), ls);
      assert Cut(ws, m) == [ws[0]] + Cut(EnrollWrites(resp)[k + 1..], m - 1);
      ApplyAllConcat(a.disk, [ws[0]], Cut(EnrollWrites(resp)[k + 1..], m - 1));
    }
  }

  function AfterPhaseTwo(a: Agent, n: nat, u: StartUp): Agent {
    var ws := EnrollPhaseWrites(a.disk, u.key2, u.reply2);
    var d := ApplyAll(a.disk, Cut(ws, n));
    a.(disk := d, pc := if |ws| <= n then PhaseThreeEnd(d) else Down)
  }

  /** The answer arrives and is stored, or the agent stops waiting. */
  lemma EndOfPhaseTwo(v: Server, a: Agent, d: Disk, n: nat, u: StartUp, r: nat) returns (ls: seq<Local>)
    requires n >= 1 && a.disk == Apply(d, OpKey(u.key2))
    requires d.opCert.None? && EnrollPhaseWrites(d, u.key2, u.reply2) != []
    requires u.reply2.Some? && n >= 2 ==>
               && a.pc == EnrollWaiting(r) && r < |v.enroll| && v.enroll[r].phase.Replied?
               && u.reply2.value == EnrollResponse(v.enroll[r].phase.id, v.enroll[r].phase.cert, FLEET_CA)
    ensures LocalRun(Pair(v, a), ls) == Pair(v, AfterPhaseTwo(a.(disk := d), n, u))
  {
    var ws := EnrollPhaseWrites(d, u.key2, u.reply2);
    ApplyAllConcat(d, [OpKey(u.key2)], Cut(ws[1..], n - 1));
    assert Cut(ws, n) == [OpKey(u.key2)] + Cut(ws[1..], n - 1);
    if u.reply2.Some? && n >= 2 {
      var p := LocalNext(Pair(v, a), Own(ReceiveEnroll));
      ls := CoverStores(v, p.a, u.reply2.value, 0, n - 1);
      ls := First(Pair(v, a), Own(ReceiveEnroll), ls);
      assert ws[1..] == EnrollWrites(u.reply2.value) == EnrollWrites(u.reply2.value)[0..];
    } else {
      ls := One(Pair(v, a), Stop);
      assert Cut(ws[1..], n - 1) == [];
    }
  }

  /** Nothing to enroll: straight to phase 3, or out for want of the device credentials. */
  lemma CoverSkippedPhaseTwo(v: Server, a: Agent, n: nat, u: StartUp) returns (ls: seq<Local>)
    requires a.pc.PhaseTwo? && EnrollPhaseWrites(a.disk, u.key2, u.reply2) == []
    ensures LocalRun(Pair(v, a), ls) == Pair(v, AfterPhaseTwo(a, n, u))
  {
    var p := LocalNext(Pair(v, a), Own(BeginEnroll(u.key2)));
    ls := [];
    if p.a.pc.PhaseThree? {
      ls := One(p, GoOnline);
    }
    ls := First(Pair(v, a), Own(BeginEnroll(u.key2)), ls);
  }

  /** The operational key is written and the request ready. */
  function Begun(a: Agent, peer: Cert, key: Key): Agent {
    a.(disk := Apply(a.disk, OpKey(key)), pc := EnrollReady(peer, Csr(a.serial, key)))
  }

  function EnrollmentSent(v: Server, a: Agent, peer: Cert, key: Key): Server {
    ServerNext(v, ArriveEnroll(Some(peer), a.serial, Csr(a.serial, key), a.firmware))
  }

  lemma SendAndServe(v: Server, a: Agent, peer: Cert, key: Key, sent: bool, w: seq<ServerStep>)
    returns (ls: seq<Local>, a': Agent)
    ensures LocalRun(Pair(v, Begun(a, peer, key)), ls) ==
              Pair(ServerRun(if sent then EnrollmentSent(v, a, peer, key) else v, w), a')
    ensures a'.(pc := a.pc) == Begun(a, peer, key).(pc := a.pc) && (sent ==> a'.pc == EnrollWaiting(|v.enroll|))
  {
    var p := Pair(v, Begun(a, peer, key));
    if sent {
      var q := LocalNext(p, Own(SendEnroll));
      ls := Serve(q, w);
      ls := First(p, Own(SendEnroll), ls);
      a' := q.a;
    } else {
      ls := Serve(p, w);
      a' := p.a;
    }
  }

  lemma CoverEnrollment(v: Server, a: Agent, n: nat, u: StartUp, w: World) returns (ls: seq<Local>)
    requires a.pc.PhaseTwo? && AnsweredTwo(v, a, a.disk, n, u, w)
    requires n >= 1 && EnrollPhaseWrites(a.disk, u.key2, u.reply2) != []
    ensures LocalRun(Pair(v, a), ls) == Pair(PhaseTwoServer(v, a, a.disk, n, u, w), AfterPhaseTwo(a, n, u))
  {
    var v2, peer := PhaseTwoServer(v, a, a.disk, n, u, w), a.disk.deviceCert.value;
    assert LocalNext(Pair(v, a), Own(BeginEnroll(u.key2))) == Pair(v, Begun(a, peer, u.key2));
    var a': Agent;
    ls, a' := SendAndServe(v, a, peer, u.key2, w.sent2, w.w2);
    var end := EndOfPhaseTwo(v2, a', a.disk, n, u, |v.enroll|);
    ls := Join(Pair(v, Begun(a, peer, u.key2)), ls, end);
    ls := First(Pair(v, a), Own(BeginEnroll(u.key2)), ls);
  }

  lemma CoverPhaseTwo(v: Server, a: Agent, n: nat, u: StartUp, w: World) returns (ls: seq<Local>)
    requires a.pc.PhaseTwo? && AnsweredTwo(v, a, a.disk, n, u, w)
    ensures LocalRun(Pair(v, a), ls) == Pair(PhaseTwoServer(v, a, a.disk, n, u, w), AfterPhaseTwo(a, n, u))
  {
    var v2 := PhaseTwoServer(v, a, a.disk, n, u, w);
    if n >= 1 && EnrollPhaseWrites(a.disk, u.key2, u.reply2) != [] {
      ls := CoverEnrollment(v, a, n, u, w);
    } else {
      ls := Serve(Pair(v, a), w.w2);
      var more: seq<Local>;
      if n == 0 && EnrollPhaseWrites(a.disk, u.key2, u.reply2) != [] {
        more := One(Pair(v2, a), Stop);
      } else {
        more := CoverSkippedPhaseTwo(v2, a, n, u);
      }
      ls := Join(Pair(v, a), ls, more);
    }
  }

  // ── A whole start-up ────────────────────────────────────────────────────────

  /** The agent once the start-up is over: stopped, or online with what it found. */
  function Finished(a: Agent, u: StartUp): Agent {
    a.(disk := After(a.disk, u), pc := if GoesOnline(a.disk, u) then PhaseThreeEnd(After(a.disk, u)) else Down)
  }

  lemma PhasesAgree(a: Agent, u: StartUp)
    requires a.pc.Down?
    ensures var first := PhaseOne(a.disk, u);
            if PassesOne(a.disk, u) then
              && |first| <= u.power && AfterPhaseOne(a, u).disk == ApplyAll(a.disk, first)
              && Finished(a, u) == AfterPhaseTwo(AfterPhaseOne(a, u), u.power - |first|, u)
            else
              && Finished(a, u) == AfterPhaseOne(a, u)
              && (u.power <= |first| || EnrollPhaseWrites(ApplyAll(a.disk, first), u.key2, u.reply2) == [])
  {
    CutByPhase(a.disk, u);
    var first := PhaseOne(a.disk, u);
    if !PassesOne(a.disk, u) {
      if u.power >= |first| {
        assert first == [DeviceKey(u.key1)] && first[1..] == [];
        assert ApplyAll(a.disk, first) == Apply(a.disk, DeviceKey(u.key1));
      }
    }
  }

  /** Every start-up, with every behaviour of the server around it, is a run of the agent and the server. */
  lemma CoverStartUp(v: Server, a: Agent, u: StartUp, w: World) returns (ls: seq<Local>)
    requires a.pc.Down? && Answered(v, a, u, w)
    ensures LocalRun(Pair(v, a), ls) == Pair(ServerAfter(v, a, u, w), Finished(a, u))
  {
    PhasesAgree(a, u);
    var v1, a1 := PhaseOneServer(v, a, u, w), AfterPhaseOne(a, u);
    ls := CoverPhaseOne(v, a, u, w);
    var more: seq<Local>;
    if PassesOne(a.disk, u) {
      more := CoverPhaseTwo(v1, a1, u.power - |PhaseOne(a.disk, u)|, u, w);
    } else {
      more := Serve(Pair(v1, a1), w.w2);
    }
    ls := Join(Pair(v, a), ls, more);
  }

  /**
   * From any state, take an agent that is down and any start-up whose answers are the server's. Some run
   * of the protocol leaves exactly the disk of that start-up, the server as it then is and everyone else
   * untouched, with the agent online if and only if the start-up goes online.
   */
  lemma ProgramIsProtocol(s: State, i: nat, u: StartUp, w: World) returns (steps: seq<Step>)
    requires i < |s.agents| && s.agents[i].pc.Down? && Answered(s.server, s.agents[i], u, w)
    ensures var a := s.agents[i]; var s' := Run(s, steps);
            && s' == State(ServerAfter(s.server, a, u, w), s.agents[i := Finished(a, u)])
            && Finished(a, u).disk == After(a.disk, u)
            && (Finished(a, u).pc.Online? <==> GoesOnline(a.disk, u))
  {
    var ls := CoverStartUp(s.server, s.agents[i], u, w);
    steps := Lift(s, i, ls);
  }

  /** So the files of the program itself never run ahead of the server, whenever the power fails. */
  lemma StartUpKeepsFilesBacked(s: State, i: nat, u: StartUp, w: World)
    requires Inv(s)
    requires i < |s.agents| && s.agents[i].pc.Down? && Answered(s.server, s.agents[i], u, w)
    ensures Inv(State(ServerAfter(s.server, s.agents[i], u, w), s.agents[i := Finished(s.agents[i], u)]))
    ensures FilesBacked(ServerAfter(s.server, s.agents[i], u, w).tables,
                        s.agents[i].(disk := After(s.agents[i].disk, u)))
  {
    var ls := CoverStartUp(s.server, s.agents[i], u, w);
    var steps := Lift(s, i, ls);
    RunKeepsInv(s, steps);
    assert AgentOk(Run(s, steps).server, Run(s, steps).agents[i]);
  }

  /** The same of the running program. */
  method StartAgent(agent: RobotAgent, u: StartUp, ghost s: State, ghost i: nat, ghost w: World)
    returns (online: Option<(string, Cert, Key)>)
    requires Inv(s) && i < |s.agents| && s.agents[i].pc.Down? && Answered(s.server, s.agents[i], u, w)
    requires agent.disk == s.agents[i].disk && agent.power == u.power
    modifies agent
    ensures FilesBacked(ServerAfter(s.server, s.agents[i], u, w).tables, s.agents[i].(disk := agent.disk))
    ensures online.Some? ==>
              IsRow(ServerAfter(s.server, s.agents[i], u, w).tables, online.value.0, s.agents[i].serial, online.value.1)
    ensures online.Some? ==> online.value.2 == online.value.1.key
  {
    online := agent.Startup(u.key1, u.reply1, u.key2, u.reply2);
    StartUpKeepsFilesBacked(s, i, u, w);
  }
}
