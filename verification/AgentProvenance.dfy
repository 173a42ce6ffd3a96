/** Whose token is behind the files of a robot, in runs of the lifecycle protocol. */
module AgentProvenance {
  import opened Prelude
  import opened Pki
  import opened ServerProtocol
  import opened Lifecycle
  import opened Claims
  import opened Provenance

  /** `cert` answers request `p`, which is the agent's own. */
  predicate OwnIssue(v: Server, a: Agent, cert: Cert, p: nat) {
    IssuedTo(v, cert, p) && v.prov[p].serial == a.serial && v.prov[p].csr == Csr(a.serial, cert.key)
  }

  ghost predicate HasOwnIssue(v: Server, a: Agent, cert: Cert) {
    exists p: nat :: OwnIssue(v, a, cert, p)
  }

  /** On disk, or received and not yet stored. */
  predicate Holds(a: Agent, cert: Cert) {
    a.disk.deviceCert == Some(cert) || (a.pc.ProvisionReceived? && a.pc.cert == cert)
  }

  /** Every device certificate the agent holds was issued to its own request. */
  ghost predicate OwnCert(v: Server, a: Agent) {
    forall cert :: Holds(a, cert) ==> HasOwnIssue(v, a, cert)
  }

  lemma StaysOwnIssue(v: Server, st: ServerStep, a: Agent, cert: Cert)
    requires HasOwnIssue(v, a, cert)
    ensures HasOwnIssue(ServerNext(v, st), a, cert)
  {
    var p: nat :| OwnIssue(v, a, cert, p);
    StepEvolvesProv(v, st, p);
    assert OwnIssue(ServerNext(v, st), a, cert, p);
  }

  lemma ServerStepKeepsOwnCert(v: Server, st: ServerStep, a: Agent)
    requires OwnCert(v, a)
    ensures OwnCert(ServerNext(v, st), a)
  {
    forall cert | Holds(a, cert) ensures HasOwnIssue(ServerNext(v, st), a, cert) {
      StaysOwnIssue(v, st, a, cert);
    }
  }

  lemma ReceiveKeepsOwnCert(v: Server, a: Agent)
    requires ServerInv(v) && AgentOk(v, a) && OwnCert(v, a)
    ensures OwnCert(v, AgentNext(v, a, ReceiveProvision))
  {
    var a' := AgentNext(v, a, ReceiveProvision);
    forall cert | Holds(a', cert) ensures HasOwnIssue(v, a', cert) {
      if Holds(a, cert) {
        var p: nat :| OwnIssue(v, a, cert, p);
        assert OwnIssue(v, a', cert, p);
      } else {
        assert ProvOk(v, a.pc.r);
        assert OwnIssue(v, a', cert, a.pc.r);
      }
    }
  }

  /** The other steps bring no new device certificate: at most they store the one received. */
  lemma OthersBringNoCert(v: Server, a: Agent, act: AgentStep)
    requires !act.ReceiveProvision?
    ensures var a' := AgentNext(v, a, act);
            && a'.serial == a.serial
            && (a'.disk.deviceCert == a.disk.deviceCert ||
                (a.pc.ProvisionReceived? && a'.disk.deviceCert == Some(a.pc.cert)))
            && (a'.pc.ProvisionReceived? ==> a'.pc == a.pc)
  {
  }

  lemma AgentStepKeepsOwnCert(v: Server, a: Agent, act: AgentStep)
    requires ServerInv(v) && AgentOk(v, a) && OwnCert(v, a)
    ensures OwnCert(v, AgentNext(v, a, act))
  {
    if act.ReceiveProvision? {
      ReceiveKeepsOwnCert(v, a);
    } else {
      OthersBringNoCert(v, a, act);
      var a' := AgentNext(v, a, act);
      forall cert | Holds(a', cert) ensures HasOwnIssue(v, a', cert) {
        assert Holds(a, cert);
        var p: nat :| OwnIssue(v, a, cert, p);
        assert OwnIssue(v, a', cert, p);
      }
    }
  }

  ghost predicate OwnCerts(s: State) {
    Inv(s) && forall a :: a in s.agents ==> OwnCert(s.server, a)
  }

  lemma StepKeepsOwnCerts(s: State, step: Step)
    requires OwnCerts(s)
    ensures OwnCerts(Next(s, step))
  {
    StepKeepsInv(s, step);
    var s' := Next(s, step);
    forall a' | a' in s'.agents ensures OwnCert(s'.server, a') {
      match step
      case ServerDo(st) => ServerStepKeepsOwnCert(s.server, st, a');
      case AddAgent(_, _, _) =>
      case AgentDo(i, act) =>
        if i < |s.agents| {
          assert AgentOk(s.server, s.agents[i]);
          AgentStepKeepsOwnCert(s.server, s.agents[i], act);
          var sent := Sends(s.agents[i], act);
          if sent.Some? {
            ServerStepKeepsOwnCert(s.server, sent.value, a');
          }
        }
    }
  }

  lemma {:induction false} RunKeepsOwnCerts(s: State, steps: seq<Step>)
    requires OwnCerts(s)
    ensures OwnCerts(Run(s, steps))
    decreases |steps|
  {
    if steps != [] {
      StepKeepsOwnCerts(s, steps[0]);
      RunKeepsOwnCerts(Next(s, steps[0]), steps[1..]);
    }
  }

  /**
   * In every reachable state the provisioning request behind a robot's device.pem is its own, carried the
   * robot's serial and key, and is the one that spent the serial's token.
   */
  lemma DevicePemHasItsToken(steps: seq<Step>, i: nat)
    requires i < |Run(INIT, steps).agents| && Run(INIT, steps).agents[i].disk.deviceCert.Some?
    ensures var s := Run(INIT, steps); var a := s.agents[i];
            exists p: nat :: OwnIssue(s.server, a, a.disk.deviceCert.value, p) && Spender(s.server, a.serial, p)
  {
    RunKeepsOwnCerts(INIT, steps);
    var s := Run(INIT, steps);
    assert s.agents[i] in s.agents && Holds(s.agents[i], s.agents[i].disk.deviceCert.value);
    var p: nat :| OwnIssue(s.server, s.agents[i], s.agents[i].disk.deviceCert.value, p);
    OnePastPerSerial(s.server, p);
  }

  lemma OnePastPerSerial(v: Server, p: nat)
    requires ServerInv(v) && p < |v.prov| && ProvPast(v.prov[p])
    ensures Spender(v, v.prov[p].serial, p)
  {
    forall q | 0 <= q < |v.prov| && ProvPast(v.prov[q]) && v.prov[q].serial == v.prov[p].serial ensures q == p {
      assert !(p < q) && !(q < p);
    }
  }

  // ── Together with the server's side ─────────────────────────────────────────

  /** No request from outside the modelled robots presents a forged device certificate. */
  ghost predicate OthersForgeNothing(s: State, steps: seq<Step>)
    decreases |steps|
  {
    steps == [] ||
    (&& (steps[0].ServerDo? && steps[0].st.ArriveEnroll? ==> PeerIssued(s.server, steps[0].st.peer))
     && OthersForgeNothing(Next(s, steps[0]), steps[1..]))
  }

  lemma RobotsForgeNothing(s: State, i: nat, act: AgentStep)
    requires OwnCerts(s) && i < |s.agents| && Sends(s.agents[i], act).Some?
    ensures var st := Sends(s.agents[i], act).value; st.ArriveEnroll? ==> PeerIssued(s.server, st.peer)
  {
    var a := s.agents[i];
    assert AgentOk(s.server, a) && a in s.agents;
    if a.pc.EnrollReady? {
      assert Holds(a, a.pc.peer);
      var p: nat :| OwnIssue(s.server, a, a.pc.peer, p);
      assert IssuedTo(s.server, a.pc.peer, p);
    }
  }

  /** So the server of such a run sees no forged certificate at all. */
  lemma {:induction false} ProjectedIsUnforged(s: State, steps: seq<Step>)
    requires OwnCerts(s) && OthersForgeNothing(s, steps)
    ensures Unforged(s.server, Projected(s, steps))
    decreases |steps|
  {
    if steps != [] {
      var step, s' := steps[0], Next(s, steps[0]);
      StepKeepsOwnCerts(s, step);
      ProjectedIsUnforged(s', steps[1..]);
      var rest := Projected(s', steps[1..]);
      if step.ServerDo? {
        assert ([step.st] + rest)[1..] == rest;
      } else if step.AgentDo? && step.a < |s.agents| && Sends(s.agents[step.a], step.act).Some? {
        RobotsForgeNothing(s, step.a, step.act);
        assert ([Sends(s.agents[step.a], step.act).value] + rest)[1..] == rest;
      } else {
        assert [] + rest == rest;
      }
    }
  }

  /**
   * When others forge nothing and every accepted provisioning CSR named its own serial, the device row of a
   * robot that is online was enrolled with the certificate of the very request that spent its token and is
   * behind its device.pem.
   */
  lemma OnlineRobotsEnrolledThemselves(steps: seq<Step>, i: nat)
    requires OthersForgeNothing(INIT, steps)
    requires i < |Run(INIT, steps).agents| && Run(INIT, steps).agents[i].pc.Online?
    requires var v := Run(INIT, steps).server;
             forall q :: 0 <= q < |v.prov| && v.prov[q].phase.ProvReplied? && v.prov[q].csr.Csr? ==>
               v.prov[q].csr.cn == v.prov[q].serial
    ensures var s := Run(INIT, steps); var a := s.agents[i];
            exists p: nat, r: nat ::
              && a.disk.deviceCert.Some? && OwnIssue(s.server, a, a.disk.deviceCert.value, p)
              && Spender(s.server, a.serial, p)
              && RepliedWith(s.server, a.pc.id, r) && PresentedBy(s.server, r, p)
  {
    var s := Run(INIT, steps);
    var a := s.agents[i];
    RunKeepsInv(INIT, steps);
    assert AgentOk(s.server, a);
    DevicePemHasItsToken(steps, i);
    var p: nat :| OwnIssue(s.server, a, a.disk.deviceCert.value, p) && Spender(s.server, a.serial, p);
    var projected := Projected(INIT, steps);
    ServerOfRun(INIT, steps);
    RunKeepsRows(START, projected);
    ProjectedIsUnforged(INIT, steps);
    var r: nat :| RepliedWith(s.server, a.pc.id, r);
    HonestCsrsEnrollThemselves(projected, r);
    var q: nat :| PresentedBy(s.server, r, q) && Spender(s.server, a.serial, q);
    assert q == p;
  }
}
