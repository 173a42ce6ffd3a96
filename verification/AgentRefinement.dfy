/**
 * The agent of the lifecycle protocol, which answers to a scheduler one step at a time, never does anything
 * the start-up program would not: its whole history is a row of start-ups, each cut off by a power failure.
 */
module AgentRefinement {
  import opened Prelude
  import opened Pki
  import opened AgentDisk
  import opened AgentProgram
  import opened ServerProtocol
  import opened Lifecycle

  /** The disk after a row of start-ups. */
  function AfterAll(d: Disk, us: seq<StartUp>): Disk
    decreases |us|
  {
    if us == [] then d else AfterAll(After(d, us[0]), us[1..])
  }

  lemma {:induction false} AfterOneMore(d: Disk, us: seq<StartUp>, u: StartUp)
    ensures AfterAll(d, us + [u]) == After(AfterAll(d, us), u)
    decreases |us|
  {
    if us == [] {
      assert us + [u] == [u];
    } else {
      assert (us + [u])[1..] == us[1..] + [u];
      AfterOneMore(After(d, us[0]), us[1..], u);
    }
  }

  function PhaseOne(d: Disk, u: StartUp): seq<Write> {
    ProvisionWrites(d, u.key1, u.reply1)
  }

  function PhaseTwoWrites(d: Disk, u: StartUp): seq<Write> {
    EnrollPhaseWrites(ApplyAll(d, PhaseOne(d, u)), u.key2, u.reply2)
  }

  /** The agent is `u.power` writes into start-up `u`, which found `d` on disk. */
  ghost predicate Midway(d: Disk, u: StartUp, a: Agent) {
    var first := |PhaseOne(d, u)|;
    var provisioned := d.deviceCert.Some? || u.reply1.Some?;
    a.disk == After(d, u) &&
    match a.pc
    case Down => true
    case ProvisionReady(_) => d.deviceCert.None? && u.power == 1
    case ProvisionWaiting(_) => d.deviceCert.None? && u.power == 1
    case ProvisionReceived(_) => d.deviceCert.None? && u.power == 1
    case PhaseTwo => provisioned && u.power == first
    case EnrollReady(_, _) => provisioned && u.power == first + 1 && PhaseTwoWrites(d, u) != []
    case EnrollWaiting(_) => provisioned && u.power == first + 1 && PhaseTwoWrites(d, u) != []
    case EnrollReceived(resp, written) =>
      && provisioned && u.reply2 == Some(resp) && written <= 3 && u.power == first + 1 + written
      && PhaseTwoWrites(d, u) != []
    case PhaseThree => provisioned && |Plan(d, u)| <= u.power
    case Online(id, cert, key) =>
      && GoesOnline(d, u) && a.disk.deviceId == Some(id) && a.disk.opCert == Some(cert) && a.disk.opKey == Some(key)
  }

  /** The agent is somewhere in a start-up that found `d` on disk. */
  ghost predicate Goes(d: Disk, a: Agent) {
    exists u :: Midway(d, u, a)
  }

  lemma OneMoreWrite(d: Disk, u: StartUp)
    requires u.power < |Plan(d, u)|
    ensures After(d, u.(power := u.power + 1)) == Apply(After(d, u), Plan(d, u)[u.power])
  {
    var ws := Plan(d, u);
    assert Cut(ws, u.power + 1) == Cut(ws, u.power) + [ws[u.power]];
    ApplyAllConcat(d, Cut(ws, u.power), [ws[u.power]]);
  }

  /** An answer that comes now does not change what was written before it. */
  lemma SamePrefixSameDisk(d: Disk, u: StartUp, u': StartUp)
    requires u.power == u'.power <= |Plan(d, u)| && u.power <= |Plan(d, u')|
    requires Plan(d, u)[..u.power] == Plan(d, u')[..u.power]
    ensures After(d, u) == After(d, u')
  {
    assert Cut(Plan(d, u), u.power) == Plan(d, u)[..u.power];
    assert Cut(Plan(d, u'), u.power) == Plan(d, u')[..u.power];
  }

  lemma BootStarts(v: Server, a: Agent, key: Key)
    requires a.pc.Down?
    ensures Goes(a.disk, AgentNext(v, a, Boot(key)))
  {
    var u := StartUp(key, None, key, None, 0);
    assert After(a.disk, u) == a.disk;
    if a.disk.deviceCert.None? {
      OneMoreWrite(a.disk, u);
      u := u.(power := 1);
    }
    assert Midway(a.disk, u, AgentNext(v, a, Boot(key)));
  }

  lemma StoreDeviceCertGoesOn(v: Server, d: Disk, u: StartUp, a: Agent)
    requires Midway(d, u, a) && a.pc.ProvisionReceived?
    ensures Goes(d, AgentNext(v, a, StoreDeviceCert))
  {
    var u1 := u.(reply1 := Some(a.pc.cert));
    assert Plan(d, u1)[0] == Plan(d, u)[0] == DeviceKey(u.key1);
    SamePrefixSameDisk(d, u, u1);
    assert Plan(d, u1)[1] == DeviceCert(a.pc.cert);
    OneMoreWrite(d, u1);
    assert Midway(d, u1.(power := 2), AgentNext(v, a, StoreDeviceCert));
  }

  lemma BeginEnrollGoesOn(v: Server, d: Disk, u: StartUp, a: Agent, key: Key)
    requires Midway(d, u, a) && a.pc.PhaseTwo?
    ensures Goes(d, AgentNext(v, a, BeginEnroll(key)))
  {
    CutByPhase(d, u);
    assert a.disk == ApplyAll(d, PhaseOne(d, u));
    var u' := u;
    if a.disk.opCert.None? && a.disk.deviceCert.Some? && a.disk.deviceKey.Some? {
      var u1 := u.(key2 := key, reply2 := None);
      SamePrefixSameDisk(d, u, u1);
      assert Plan(d, u1)[u1.power] == OpKey(key);
      OneMoreWrite(d, u1);
      u' := u1.(power := u1.power + 1);
    }
    assert Midway(d, u', AgentNext(v, a, BeginEnroll(key)));
  }

  lemma ReceiveEnrollGoesOn(v: Server, d: Disk, u: StartUp, a: Agent)
    requires Midway(d, u, a) && a.pc.EnrollWaiting?
    ensures Goes(d, AgentNext(v, a, ReceiveEnroll))
  {
    var u' := u;
    if AgentNext(v, a, ReceiveEnroll).pc.EnrollReceived? {
      u' := u.(reply2 := Some(AgentNext(v, a, ReceiveEnroll).pc.resp));
      assert PhaseTwoWrites(d, u)[..1] == PhaseTwoWrites(d, u')[..1] == [OpKey(u.key2)];
      assert Plan(d, u)[..u.power] == PhaseOne(d, u) + [OpKey(u.key2)] == Plan(d, u')[..u.power];
      SamePrefixSameDisk(d, u, u');
    }
    assert Midway(d, u', AgentNext(v, a, ReceiveEnroll));
  }

  lemma StoreNextGoesOn(v: Server, d: Disk, u: StartUp, a: Agent)
    requires Midway(d, u, a) && a.pc.EnrollReceived?
    ensures Goes(d, AgentNext(v, a, StoreNext))
  {
    var u' := u;
    var second := PhaseTwoWrites(d, u);
    assert second == [OpKey(u.key2)] + EnrollWrites(a.pc.resp);
    if a.pc.written < 3 {
      assert Plan(d, u)[u.power] == second[1 + a.pc.written] == EnrollWrites(a.pc.resp)[a.pc.written];
      OneMoreWrite(d, u);
      u' := u.(power := u.power + 1);
    }
    assert Midway(d, u', AgentNext(v, a, StoreNext));
  }

  /** Each step of an agent is one the program takes, in the same start-up or, after a reboot, in the next one. */
  lemma AgentStepGoesOn(v: Server, d: Disk, u: StartUp, a: Agent, act: AgentStep)
    requires Midway(d, u, a)
    ensures if act.Boot? && a.pc.Down? then Goes(After(d, u), AgentNext(v, a, act))
            else Goes(d, AgentNext(v, a, act))
  {
    if act.Boot? && a.pc.Down? {
      BootStarts(v, a, act.key);
    } else if act.StoreDeviceCert? && a.pc.ProvisionReceived? {
      StoreDeviceCertGoesOn(v, d, u, a);
    } else if act.BeginEnroll? && a.pc.PhaseTwo? {
      BeginEnrollGoesOn(v, d, u, a, act.key);
    } else if act.ReceiveEnroll? && a.pc.EnrollWaiting? {
      ReceiveEnrollGoesOn(v, d, u, a);
    } else if act.StoreNext? && a.pc.EnrollReceived? {
      StoreNextGoesOn(v, d, u, a);
    } else {
      assert Midway(d, u, AgentNext(v, a, act));
    }
  }

  /** The agent is midway through `u`, after the start-ups `us` of a robot that left the factory blank. */
  ghost predicate Story(us: seq<StartUp>, u: StartUp, a: Agent) {
    Midway(AfterAll(BLANK, us), u, a)
  }

  ghost predicate HasStory(a: Agent) {
    exists us, u :: Story(us, u, a)
  }

  lemma StepKeepsStory(v: Server, a: Agent, act: AgentStep)
    requires HasStory(a)
    ensures HasStory(AgentNext(v, a, act))
  {
    var us, u :| Story(us, u, a);
    var d := AfterAll(BLANK, us);
    AgentStepGoesOn(v, d, u, a, act);
    AfterOneMore(BLANK, us, u);
    var us' := if act.Boot? && a.pc.Down? then us + [u] else us;
    var u' :| Midway(AfterAll(BLANK, us'), u', AgentNext(v, a, act));
    assert Story(us', u', AgentNext(v, a, act));
  }

  lemma {:induction false} RunKeepsStories(s: State, steps: seq<Step>)
    requires forall a :: a in s.agents ==> HasStory(a)
    ensures forall a :: a in Run(s, steps).agents ==> HasStory(a)
    decreases |steps|
  {
    if steps != [] {
      var s' := Next(s, steps[0]);
      forall a | a in s'.agents ensures HasStory(a) {
        if a !in s.agents {
          match steps[0]
          case AgentDo(i, act) => StepKeepsStory(s.server, s.agents[i], act);
          case AddAgent(_, _, _) => FactoryFresh(a);
          case _ =>
        }
      }
      RunKeepsStories(s', steps[1..]);
    }
  }

  lemma FactoryFresh(a: Agent)
    requires a.disk == BLANK && a.pc.Down?
    ensures HasStory(a)
  {
    var u := StartUp(0, None, 0, None, 0);
    assert AfterAll(BLANK, []) == BLANK;
    assert Story([], u, a);
  }

  /**
   * In every reachable state an agent's files are what a row of start-ups leaves, each with some keys,
   * some answers and some number of writes before it stopped; and an agent is online only when the last of
   * them runs to its end, with the identity that program then returns.
   */
  lemma AgentsRunTheProgram(steps: seq<Step>, i: nat)
    requires i < |Run(INIT, steps).agents|
    ensures var a := Run(INIT, steps).agents[i];
            exists us, u :: Story(us, u, a) && a.disk == AfterAll(BLANK, us + [u]) &&
              (a.pc.Online? ==>
                 && GoesOnline(AfterAll(BLANK, us), u) && a.disk.deviceId == Some(a.pc.id)
                 && a.disk.opCert == Some(a.pc.cert) && a.disk.opKey == Some(a.pc.key))
  {
    RunKeepsStories(INIT, steps);
    var a := Run(INIT, steps).agents[i];
    assert a in Run(INIT, steps).agents;
    var us, u :| Story(us, u, a);
    AfterOneMore(BLANK, us, u);
  }
}
