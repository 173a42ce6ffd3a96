/**
 * Who enrolls. The handlers sign the name a CSR carries, so a device certificate ties an enrollment to the
 * provisioning request it was issued to, and to that request's serial exactly when the CSR named it.
 */
module Provenance {
  import opened Prelude
  import opened Pki
  import opened DeviceTables
  import opened ServerProtocol
  import opened EnrollmentService

  /** `cert` is the answer to provisioning request `p`. */
  predicate IssuedTo(v: Server, cert: Cert, p: nat) {
    p < |v.prov| && v.prov[p].phase == ProvReplied(cert)
  }

  /** Nobody but the service signs with the device CA's key. */
  ghost predicate PeerIssued(v: Server, peer: Option<Cert>) {
    peer.Some? && peer.value.issuer == DeviceCa ==> exists p: nat :: IssuedTo(v, peer.value, p)
  }

  /** No request of the run presents a forged device certificate. */
  ghost predicate Unforged(v: Server, steps: seq<ServerStep>)
    decreases |steps|
  {
    steps == [] || ((steps[0].ArriveEnroll? ==> PeerIssued(v, steps[0].peer))
                    && Unforged(ServerNext(v, steps[0]), steps[1..]))
  }

  /** No two certificates are alike. */
  ghost predicate StampsDiffer(v: Server) {
    && (forall p :: 0 <= p < |v.prov| && v.prov[p].phase.ProvReplied? ==> v.prov[p].phase.cert.stamp < v.stamp)
    && (forall p, q :: 0 <= p < q < |v.prov| && v.prov[p].phase.ProvReplied? && v.prov[q].phase.ProvReplied? ==>
          v.prov[p].phase.cert != v.prov[q].phase.cert)
  }

  ghost predicate ProvenanceInv(v: Server) {
    && StampsDiffer(v)
    && (forall r :: 0 <= r < |v.enroll| ==> PeerIssued(v, v.enroll[r].peer))
  }

  lemma StampsOnlyGrow(v: Server, st: ServerStep)
    ensures v.stamp <= ServerNext(v, st).stamp
  {
  }

  lemma NewlyIssued(v: Server, st: ServerStep, p: nat)
    requires p < |ServerNext(v, st).prov| && ServerNext(v, st).prov[p].phase.ProvReplied?
    requires p < |v.prov| ==> !v.prov[p].phase.ProvReplied?
    ensures p < |v.prov| && st == SignProv(p)
    ensures ServerNext(v, st).prov[p].phase.cert.stamp == v.stamp < ServerNext(v, st).stamp
  {
    NewcomersWait(v, st);
    if p < |v.prov| {
      ProvMoves(v, st, p);
      if st.ClaimProv? && st.r == p {
        ClaimProvIsOk(v, p, st.now);
      }
    }
  }

  lemma StepKeepsStamps(v: Server, st: ServerStep)
    requires StampsDiffer(v)
    ensures StampsDiffer(ServerNext(v, st))
  {
    var v' := ServerNext(v, st);
    StampsOnlyGrow(v, st);
    forall p | 0 <= p < |v'.prov| && v'.prov[p].phase.ProvReplied? ensures v'.prov[p].phase.cert.stamp < v'.stamp {
      if p < |v.prov| && v.prov[p].phase.ProvReplied? {
        StepEvolvesProv(v, st, p);
      } else {
        NewlyIssued(v, st, p);
      }
    }
    forall p, q | 0 <= p < q < |v'.prov| && v'.prov[p].phase.ProvReplied? && v'.prov[q].phase.ProvReplied?
      ensures v'.prov[p].phase.cert != v'.prov[q].phase.cert
    {
      StepKeepsDistinct(v, st, p, q);
    }
  }

  lemma StepKeepsDistinct(v: Server, st: ServerStep, p: nat, q: nat)
    requires StampsDiffer(v)
    requires var v' := ServerNext(v, st);
             p < q < |v'.prov| && v'.prov[p].phase.ProvReplied? && v'.prov[q].phase.ProvReplied?
    ensures ServerNext(v, st).prov[p].phase.cert != ServerNext(v, st).prov[q].phase.cert
  {
    if p < |v.prov| && v.prov[p].phase.ProvReplied? {
      StepEvolvesProv(v, st, p);
    } else {
      NewlyIssued(v, st, p);
    }
    if q < |v.prov| && v.prov[q].phase.ProvReplied? {
      StepEvolvesProv(v, st, q);
    } else {
      NewlyIssued(v, st, q);
    }
  }

  lemma StaysIssued(v: Server, st: ServerStep, peer: Option<Cert>)
    requires PeerIssued(v, peer)
    ensures PeerIssued(ServerNext(v, st), peer)
  {
    if peer.Some? && peer.value.issuer == DeviceCa {
      var p: nat :| IssuedTo(v, peer.value, p);
      StepEvolvesProv(v, st, p);
      assert IssuedTo(ServerNext(v, st), peer.value, p);
    }
  }

  lemma NewPeer(v: Server, st: ServerStep, r: nat)
    requires |v.enroll| <= r < |ServerNext(v, st).enroll|
    ensures st.ArriveEnroll? && ServerNext(v, st).enroll[r].peer == st.peer && ServerNext(v, st).prov == v.prov
  {
  }

  lemma {:induction false} RunKeepsProvenance(v: Server, steps: seq<ServerStep>)
    requires ServerInv(v) && ProvenanceInv(v) && Unforged(v, steps)
    ensures ProvenanceInv(ServerRun(v, steps))
    decreases |steps|
  {
    if steps != [] {
      var v' := ServerNext(v, steps[0]);
      ServerStepKeepsInv(v, steps[0]);
      StepKeepsStamps(v, steps[0]);
      forall r | 0 <= r < |v'.enroll| ensures PeerIssued(v', v'.enroll[r].peer) {
        if r < |v.enroll| {
          StepEvolvesEnroll(v, steps[0], r);
          StaysIssued(v, steps[0], v.enroll[r].peer);
        } else {
          NewPeer(v, steps[0], r);
          StaysIssued(v, steps[0], steps[0].peer);
        }
      }
      RunKeepsProvenance(v', steps[1..]);
    }
  }

  /** Request `p` is the one that spent the token of `serial`. */
  ghost predicate Spender(v: Server, serial: string, p: nat) {
    && p < |v.prov| && ProvPast(v.prov[p]) && v.prov[p].serial == serial
    && forall q :: 0 <= q < |v.prov| && ProvPast(v.prov[q]) && v.prov[q].serial == serial ==> q == p
  }

  /** Enrollment `r` presents the certificate of request `p`, of no other one, and with it the key of `p`'s CSR. */
  ghost predicate PresentedBy(v: Server, r: nat, p: nat) {
    && r < |v.enroll| && v.enroll[r].peer.Some? && IssuedTo(v, v.enroll[r].peer.value, p)
    && v.prov[p].csr.Csr? && v.enroll[r].peer.value.key == v.prov[p].csr.key
    && forall q: nat :: IssuedTo(v, v.enroll[r].peer.value, q) ==> q == p
  }

  /**
   * In every run without forged device certificates, each enrollment past its claim is by exactly one
   * provisioned party; that party spent the token of some serial, and of the very serial it enrolls if and
   * only if its CSR carried the serial it presented the token for.
   */
  lemma EnrollerSpentTheToken(steps: seq<ServerStep>, r: nat)
    requires Unforged(START, steps)
    requires r < |ServerRun(START, steps).enroll| && Past(ServerRun(START, steps).enroll[r])
    ensures var v := ServerRun(START, steps);
            exists p: nat ::
              && PresentedBy(v, r, p) && Spender(v, v.prov[p].serial, p)
              && (Spender(v, SerialOf(v.enroll[r]), p) <==> v.prov[p].csr.cn == v.prov[p].serial)
  {
    ServerRunKeepsInv(START, steps);
    RunKeepsProvenance(START, steps);
    var v := ServerRun(START, steps);
    assert EnrollOk(v, r) && PeerIssued(v, v.enroll[r].peer);
    var p: nat :| IssuedTo(v, v.enroll[r].peer.value, p);
    assert ProvOk(v, p);
    forall q: nat | IssuedTo(v, v.enroll[r].peer.value, q) ensures q == p {
      assert !(p < q) && !(q < p);
    }
    forall q | 0 <= q < |v.prov| && ProvPast(v.prov[q]) && v.prov[q].serial == v.prov[p].serial ensures q == p {
      assert !(p < q) && !(q < p);
    }
    assert PresentedBy(v, r, p);
  }

  /** So if every accepted CSR names its own serial, as the robots' do, only who spent a serial's token enrolls it. */
  lemma HonestCsrsEnrollThemselves(steps: seq<ServerStep>, r: nat)
    requires Unforged(START, steps)
    requires var v := ServerRun(START, steps);
             && r < |v.enroll| && Past(v.enroll[r])
             && (forall q :: 0 <= q < |v.prov| && v.prov[q].phase.ProvReplied? && v.prov[q].csr.Csr? ==>
                 v.prov[q].csr.cn == v.prov[q].serial)
    ensures var v := ServerRun(START, steps);
            exists p: nat :: PresentedBy(v, r, p) && Spender(v, SerialOf(v.enroll[r]), p)
  {
    EnrollerSpentTheToken(steps, r);
  }

  /** The provisioning call does not compare: its certificate names the serial exactly when the CSR did. */
  lemma CertificateNamesTheCsr(t: Tables, serial: string, csr: Csr, token: string, now: int, stamp: nat, fault: nat)
    ensures var o := ProvisionOutcome(t, serial, csr, token, now, stamp, fault);
            o.result.Success? ==>
              Provisioned(o.tables, serial) && csr.Csr? && (o.result.value.cn == serial <==> csr.cn == serial)
  {
  }

  /** Nor does the enrollment call: the operational certificate names the enrolled serial exactly when its CSR did. */
  lemma OperationalNamesTheCsr(t: Tables, peer: Option<Cert>, serialField: string, csr: Csr, firmware: string,
                               id: string, now: int, stamp: nat, fault: nat, insertFails: bool)
    ensures var o := EnrollOutcome(t, peer, serialField, csr, firmware, id, now, stamp, fault, insertFails);
            o.result.Success? ==>
              && csr.Csr? && CheckPeer(peer, serialField).Success?
              && id in o.tables.devices && o.tables.devices[id].cert == o.result.value.1
              && o.tables.devices[id].serial == CheckPeer(peer, serialField).value
              && (o.result.value.1.cn == o.tables.devices[id].serial <==> csr.cn == o.tables.devices[id].serial)
  {
  }

  // ── A run in which the names differ ─────────────────────────────────────────

  lemma {:induction false} UnforgedConcat(v: Server, steps: seq<ServerStep>, more: seq<ServerStep>)
    requires Unforged(v, steps) && Unforged(ServerRun(v, steps), more)
    ensures Unforged(v, steps + more)
    decreases |steps|
  {
    if steps == [] {
      assert steps + more == more;
    } else {
      assert (steps + more)[1..] == steps[1..] + more;
      UnforgedConcat(ServerNext(v, steps[0]), steps[1..], more);
    }
  }

  lemma UnforgedTwo(v: Server, st1: ServerStep, st2: ServerStep)
    requires !st2.ArriveEnroll? && (st1.ArriveEnroll? ==> PeerIssued(v, st1.peer))
    ensures Unforged(v, [st1, st2])
  {
    assert [st1, st2][1..] == [st2] && [st2][1..] == [];
    assert Unforged(ServerNext(ServerNext(v, st1), st2), []);
    assert Unforged(ServerNext(v, st1), [st2]);
  }

  /** A serial is seeded and a request for it, whatever name its CSR carries, is provisioned. */
  function Provisioning(serial: string, token: string, csr: Csr, r: nat): seq<ServerStep> {
    [Seed(serial, "", token), ArriveProv(serial, csr, token)] + [ClaimProv(r, 0), SignProv(r)]
  }

  lemma ProvisioningServes(v: Server, serial: string, token: string, csr: Csr)
    requires serial != "" && token != "" && csr.Csr? && serial !in v.tables.manifest
    ensures var v' := ServerRun(v, Provisioning(serial, token, csr, |v.prov|));
            && v'.prov ==
                v.prov + [ProvRequest(serial, csr, token, ProvReplied(Cert(csr.cn, csr.key, DeviceCa, v.stamp)))]
            && v'.stamp == v.stamp + 1 && v'.enroll == v.enroll
            && v'.tables.manifest.Keys == v.tables.manifest.Keys + {serial}
            && v'.tables.pre ==
                (if serial in v.tables.pre then v.tables.pre else v.tables.pre[serial := PreRow("", false)])
  {
    var r := |v.prov|;
    RunOfTwo(v, Seed(serial, "", token), ArriveProv(serial, csr, token));
    var v1 := ServerRun(v, [Seed(serial, "", token), ArriveProv(serial, csr, token)]);
    assert v1.prov == v.prov + [ProvRequest(serial, csr, token, ProvArrived)];
    RunOfTwo(v1, ClaimProv(r, 0), SignProv(r));
    RunConcat(v, [Seed(serial, "", token), ArriveProv(serial, csr, token)], [ClaimProv(r, 0), SignProv(r)]);
  }

  lemma ProvisioningIsUnforged(v: Server, serial: string, token: string, csr: Csr, r: nat)
    ensures Unforged(v, Provisioning(serial, token, csr, r))
  {
    var first, second := [Seed(serial, "", token), ArriveProv(serial, csr, token)], [ClaimProv(r, 0), SignProv(r)];
    UnforgedTwo(v, first[0], first[1]);
    UnforgedTwo(ServerRun(v, first), second[0], second[1]);
    UnforgedConcat(v, first, second);
  }

  /** The claim goes to a request whose certificate names the serial, whoever spent that serial's token. */
  lemma EnrollmentServes(v: Server, serial: string, cert: Cert, p: nat)
    requires IssuedTo(v, cert, p) && cert.cn == serial && cert.issuer == DeviceCa && v.enroll == []
    requires serial in v.tables.pre && !v.tables.pre[serial].claimed
    ensures var steps := [ArriveEnroll(Some(cert), serial, NoCsr, ""), ClaimEnroll(0)];
            var v' := ServerRun(v, steps);
            && Unforged(v, steps) && v'.prov == v.prov && |v'.enroll| == 1
            && v'.enroll[0].phase.Claimed? && v'.enroll[0].peer == Some(cert)
  {
    var arrive := ArriveEnroll(Some(cert), serial, NoCsr, "");
    RunOfTwo(v, arrive, ClaimEnroll(0));
    UnforgedTwo(v, arrive, ClaimEnroll(0));
    assert ServerNext(v, arrive).enroll == [EnrollRequest(Some(cert), serial, NoCsr, "", Arrived)];
  }

  /**
   * The condition on the CSR matters: after two provisionings, of `a` with a CSR that names
   * `b` and of `b` itself, the claim of `b` can go to the party that spent the token of `a`.
   */
  lemma NamesMayDiffer(a: string, b: string, token: string)
    requires a != "" && b != "" && a != b && token != ""
    ensures exists steps ::
              && Unforged(START, steps)
              && var v := ServerRun(START, steps);
                 && |v.enroll| == 1 && Past(v.enroll[0]) && SerialOf(v.enroll[0]) == b
                 && PresentedBy(v, 0, 1) && Spender(v, a, 1) && Spender(v, b, 0) && !Spender(v, b, 1)
  {
    var first := Provisioning(b, token, Csr(b, 1), 0);
    var second := Provisioning(a, token, Csr(b, 2), 1);
    var third := [ArriveEnroll(Some(Cert(b, 2, DeviceCa, 1)), b, NoCsr, ""), ClaimEnroll(0)];
    ProvisioningServes(START, b, token, Csr(b, 1));
    ProvisioningIsUnforged(START, b, token, Csr(b, 1), 0);
    var v1 := ServerRun(START, first);
    ProvisioningServes(v1, a, token, Csr(b, 2));
    ProvisioningIsUnforged(v1, a, token, Csr(b, 2), 1);
    RunConcat(START, first, second);
    UnforgedConcat(START, first, second);
    var v2 := ServerRun(v1, second);
    assert IssuedTo(v2, Cert(b, 2, DeviceCa, 1), 1);
    EnrollmentServes(v2, b, Cert(b, 2, DeviceCa, 1), 1);
    RunConcat(START, first + second, third);
    UnforgedConcat(START, first + second, third);
    var steps := first + second + third;
    assert v2.prov == [ProvRequest(b, Csr(b, 1), token, ProvReplied(Cert(b, 1, DeviceCa, 0))),
                       ProvRequest(a, Csr(b, 2), token, ProvReplied(Cert(b, 2, DeviceCa, 1)))];
    assert Unforged(START, steps);
  }
}
