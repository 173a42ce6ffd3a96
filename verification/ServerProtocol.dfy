/**
 * The device service as a transition system. Each store call is atomic (one lock), but a request is
 * several steps, so any number of requests interleave, and any of them may stop between two steps.
 */
module ServerProtocol {
  import opened Prelude
  import opened Pki
  import opened DeviceTables

  /** Why a request ended: the error it returned, or the handler stopped (crash, dropped connection). */
  datatype End = Failed(error: Error) | Stopped

  /** How a request can end without reaching its next step: the handler stops, or the engine fails there. */
  datatype Ending = Halt | EngineError

  function EndOf(why: Ending): End {
    if why.Halt? then Stopped else Failed(Db)
  }

  datatype ProvPhase =
    | ProvArrived
    | ProvClaimed(model: string)
    | ProvReplied(cert: Cert)
    | ProvRejected(why: End)
    | ProvAbandoned(why: End)

  datatype ProvRequest = ProvRequest(serial: string, csr: Csr, token: string, phase: ProvPhase)

  datatype EnrollPhase =
    | Arrived
    | Claimed(model: string)
    | Signed(model: string, cert: Cert)
    | Replied(id: string, cert: Cert)
    | Rejected(why: End)
    | Abandoned(why: End)

  datatype EnrollRequest =
    EnrollRequest(peer: Option<Cert>, serialField: string, csr: Csr, firmware: string, phase: EnrollPhase)

  /** History of the run, oldest first; it records and never decides. */
  datatype Event =
    | SeedTried(serial: string, model: string, token: string)
    | TokenSpent(serial: string, model: string, token: string)
    | SerialClaimed(serial: string)
    | BootstrapSigned(serial: string, cert: Cert)
    | Enrolled(serial: string, id: string, model: string)

  datatype Server = Server(tables: Tables, prov: seq<ProvRequest>, enroll: seq<EnrollRequest>,
                           stamp: nat, log: seq<Event>)

  const START := Server(EMPTY, [], [], 0, [])

  datatype ServerStep =
    | Seed(serial: string, model: string, token: string)
    | ArriveProv(serial: string, csr: Csr, token: string)
    | ClaimProv(r: nat, now: int)
    | SignProv(r: nat)
    | DropProv(r: nat, why: Ending)
    | ArriveEnroll(peer: Option<Cert>, serialField: string, csr: Csr, firmware: string)
    | ClaimEnroll(r: nat)
    | SignEnroll(r: nat)
    | CreateEnroll(r: nat, id: string, now: int)
    | DropEnroll(r: nat, why: Ending)
    | Crash
    | ChangeStatus(id: string, status: string)
    | Touch(id: string, now: int)
    | Register(serial: string, model: string)

  // ── One step ────────────────────────────────────────────────────────────────

  /** The checks before the claim: the serial named by a certificate of the device CA, or the error. */
  function CheckPeer(peer: Option<Cert>, serialField: string): Result<string, Error> {
    if peer.None? then Failure(PkiError)
    else if serialField != "" && serialField != peer.value.cn then Failure(SerialMismatch(peer.value.cn, serialField))
    else if peer.value.issuer != DeviceCa then Failure(CertVerification)
    else Success(peer.value.cn)
  }

  function SerialOf(q: EnrollRequest): string {
    if q.peer.Some? then q.peer.value.cn else ""
  }

  function StopProv(q: ProvRequest, why: Ending): ProvRequest {
    match q.phase
    case ProvArrived => q.(phase := ProvRejected(EndOf(why)))
    case ProvClaimed(_) => q.(phase := ProvAbandoned(EndOf(why)))
    case _ => q
  }

  function StopEnroll(q: EnrollRequest, why: Ending): EnrollRequest {
    match q.phase
    case Arrived => q.(phase := Rejected(EndOf(why)))
    case Claimed(_) => q.(phase := Abandoned(EndOf(why)))
    case Signed(_, _) => q.(phase := Abandoned(EndOf(why)))
    case _ => q
  }

  function SetProv(v: Server, r: nat, phase: ProvPhase): Server
    requires r < |v.prov|
  {
    v.(prov := v.prov[r := v.prov[r].(phase := phase)])
  }

  function SetEnroll(v: Server, r: nat, phase: EnrollPhase): Server
    requires r < |v.enroll|
  {
    v.(enroll := v.enroll[r := v.enroll[r].(phase := phase)])
  }

  function DoClaimProv(v: Server, r: nat, now: int): Server
    requires r < |v.prov|
  {
    var q := v.prov[r];
    if q.serial == "" || q.csr.NoCsr? || q.token == "" then SetProv(v, r, ProvRejected(Failed(InvalidArgument)))
    else
      var o := ClaimManifest(v.tables, q.serial, q.token, now);
      match o.result
      case Failure(e) => SetProv(v, r, ProvRejected(Failed(e)))
      case Success(model) =>
        SetProv(v, r, ProvClaimed(model)).(tables := o.tables, log := v.log + [TokenSpent(q.serial, model, q.token)])
  }

  function DoSignProv(v: Server, r: nat): Server
    requires r < |v.prov|
  {
    match SignCsr(v.prov[r].csr, DeviceCa, v.stamp)
    case None => SetProv(v, r, ProvAbandoned(Failed(PkiError)))
    case Some(cert) => SetProv(v, r, ProvReplied(cert)).(stamp := v.stamp + 1)
  }

  function DoClaimEnroll(v: Server, r: nat): Server
    requires r < |v.enroll|
  {
    var q := v.enroll[r];
    match CheckPeer(q.peer, q.serialField)
    case Failure(e) => SetEnroll(v, r, Rejected(Failed(e)))
    case Success(serial) =>
      var o := ClaimSerial(v.tables, serial);
      match o.result
      case Failure(e) => SetEnroll(v, r, Rejected(Failed(e)))
      case Success(model) =>
        SetEnroll(v, r, Claimed(model)).(tables := o.tables, log := v.log + [SerialClaimed(serial)])
  }

  function DoSignEnroll(v: Server, r: nat): Server
    requires r < |v.enroll| && v.enroll[r].phase.Claimed?
  {
    match SignCsr(v.enroll[r].csr, FleetCa, v.stamp)
    case None => SetEnroll(v, r, Abandoned(Failed(PkiError)))
    case Some(cert) =>
      SetEnroll(v, r, Signed(v.enroll[r].phase.model, cert))
      .(stamp := v.stamp + 1, log := v.log + [BootstrapSigned(SerialOf(v.enroll[r]), cert)])
  }

  function DoCreate(v: Server, r: nat, id: string, now: int): Server
    requires r < |v.enroll| && v.enroll[r].phase.Signed?
  {
    var q := v.enroll[r];
    var o := CreateDevice(v.tables, id, NewDevice(SerialOf(q), q.phase.model, q.firmware, q.phase.cert), now);
    match o.result
    case Failure(e) => SetEnroll(v, r, Abandoned(Failed(e)))
    case Success(_) =>
      SetEnroll(v, r, Replied(id, q.phase.cert))
      .(tables := o.tables, log := v.log + [Enrolled(SerialOf(q), id, q.phase.model)])
  }

  /** A step whose request is absent or in another phase does nothing. */
  function ServerNext(v: Server, st: ServerStep): Server {
    match st
    case Seed(serial, model, token) =>
      v.(tables := SeedManifest(v.tables, serial, model, token), log := v.log + [SeedTried(serial, model, token)])
    case ArriveProv(serial, csr, token) => v.(prov := v.prov + [ProvRequest(serial, csr, token, ProvArrived)])
    case ClaimProv(r, now) => if r < |v.prov| && v.prov[r].phase.ProvArrived? then DoClaimProv(v, r, now) else v
    case SignProv(r) => if r < |v.prov| && v.prov[r].phase.ProvClaimed? then DoSignProv(v, r) else v
    case DropProv(r, why) => if r < |v.prov| then v.(prov := v.prov[r := StopProv(v.prov[r], why)]) else v
    case ArriveEnroll(peer, serialField, csr, firmware) =>
      v.(enroll := v.enroll + [EnrollRequest(peer, serialField, csr, firmware, Arrived)])
    case ClaimEnroll(r) => if r < |v.enroll| && v.enroll[r].phase.Arrived? then DoClaimEnroll(v, r) else v
    case SignEnroll(r) => if r < |v.enroll| && v.enroll[r].phase.Claimed? then DoSignEnroll(v, r) else v
    case CreateEnroll(r, id, now) => if r < |v.enroll| && v.enroll[r].phase.Signed? then DoCreate(v, r, id, now) else v
    case DropEnroll(r, why) => if r < |v.enroll| then v.(enroll := v.enroll[r := StopEnroll(v.enroll[r], why)]) else v
    case Crash =>
      v.(prov := seq(|v.prov|, i requires 0 <= i < |v.prov| => StopProv(v.prov[i], Halt)),
         enroll := seq(|v.enroll|, i requires 0 <= i < |v.enroll| => StopEnroll(v.enroll[i], Halt)))
    case ChangeStatus(id, status) => v.(tables := SetStatus(v.tables, id, status).tables)
    case Touch(id, now) => v.(tables := TouchLastSeen(v.tables, id, now).tables)
    case Register(serial, model) => v.(tables := RegisterSerial(v.tables, serial, model))
  }

  function ServerRun(v: Server, steps: seq<ServerStep>): Server
    decreases |steps|
  {
    if steps == [] then v else ServerRun(ServerNext(v, steps[0]), steps[1..])
  }

  /** The operator's calls, outright: each writes one row of one table. */
  lemma OperatorSteps(v: Server, serial: string, model: string, token: string, id: string, status: string)
    ensures var t := v.tables;
            && ServerNext(v, Seed(serial, model, token)).tables ==
               (if serial in t.manifest then t
                else t.(manifest := t.manifest[serial := ManifestRow(model, token, None)]))
            && ServerNext(v, ChangeStatus(id, status)) ==
               (if id !in t.devices then v
                else v.(tables := t.(devices := t.devices[id := t.devices[id].(status := status)])))
            && ServerNext(v, Register(serial, model)) ==
               (if serial !in t.pre then v.(tables := t.(pre := t.pre[serial := PreRow(model, false)]))
                else if exists i :: i in t.devices && t.devices[i].serial == serial then v
                else v.(tables := t.(pre := t.pre[serial := PreRow(t.pre[serial].model, false)])))
  {
  }

  lemma {:induction false} RunConcat(v: Server, steps: seq<ServerStep>, more: seq<ServerStep>)
    ensures ServerRun(v, steps + more) == ServerRun(ServerRun(v, steps), more)
    decreases |steps|
  {
    if steps == [] {
      assert steps + more == more;
    } else {
      assert (steps + more)[1..] == steps[1..] + more;
      RunConcat(ServerNext(v, steps[0]), steps[1..], more);
    }
  }

  lemma RunOfOne(v: Server, st: ServerStep)
    ensures ServerRun(v, [st]) == ServerNext(v, st)
  {
    assert [st][1..] == [];
    assert ServerRun(ServerNext(v, st), []) == ServerNext(v, st);
  }

  lemma RunOfTwo(v: Server, st1: ServerStep, st2: ServerStep)
    ensures ServerRun(v, [st1, st2]) == ServerNext(ServerNext(v, st1), st2)
  {
    RunOfOne(ServerNext(v, st1), st2);
    assert [st1, st2][1..] == [st2];
  }

  // ── What every run keeps ────────────────────────────────────────────────────

  predicate ProvPast(q: ProvRequest) {
    q.phase.ProvClaimed? || q.phase.ProvReplied? || q.phase.ProvAbandoned?
  }

  /** Past the claim: the request won lookup_and_claim for its serial. */
  predicate Past(q: EnrollRequest) {
    q.phase.Claimed? || q.phase.Signed? || q.phase.Replied? || q.phase.Abandoned?
  }

  ghost predicate ProvOk(v: Server, r: nat)
    requires r < |v.prov|
  {
    var q := v.prov[r];
    && (ProvPast(q) ==> Provisioned(v.tables, q.serial))
    && (q.phase.ProvReplied? ==>
          q.csr.Csr? && q.phase.cert == Cert(q.csr.cn, q.csr.key, DeviceCa, q.phase.cert.stamp))
  }

  ghost predicate EnrollOk(v: Server, r: nat)
    requires r < |v.enroll|
  {
    var q := v.enroll[r];
    && (Past(q) ==> CheckPeer(q.peer, q.serialField) == Success(SerialOf(q)))
    && (q.phase.Signed? || q.phase.Replied? ==>
          q.csr.Csr? && q.phase.cert == Cert(q.csr.cn, q.csr.key, FleetCa, q.phase.cert.stamp))
    && (q.phase.Replied? ==>
          && q.phase.id in v.tables.devices
          && v.tables.devices[q.phase.id].serial == SerialOf(q)
          && v.tables.devices[q.phase.id].cert == q.phase.cert)
  }

  /** Holds in every reachable state, register_serial included. */
  ghost predicate ServerInv(v: Server) {
    && UniqueSerials(v.tables)
    && (forall serial :: Provisioned(v.tables, serial) ==> serial in v.tables.pre)
    && (forall r :: 0 <= r < |v.prov| ==> ProvOk(v, r))
    && (forall r :: 0 <= r < |v.enroll| ==> EnrollOk(v, r))
    && (forall r, q :: 0 <= r < q < |v.prov| && ProvPast(v.prov[r]) && ProvPast(v.prov[q]) ==>
        v.prov[r].serial != v.prov[q].serial)
    && (forall r, q :: 0 <= r < q < |v.enroll| && v.enroll[r].phase.Replied? && v.enroll[q].phase.Replied? ==>
          SerialOf(v.enroll[r]) != SerialOf(v.enroll[q]))
  }

  /** Nothing a run does unprovisions a serial, removes a device row or changes its serial or certificate. */
  ghost predicate TablesGrow(t: Tables, t': Tables) {
    && (forall s :: Provisioned(t, s) ==> Provisioned(t', s))
    && (forall id :: id in t.devices ==>
          && id in t'.devices && t'.devices[id].serial == t.devices[id].serial
          && t'.devices[id].cert == t.devices[id].cert)
  }

  /** A request keeps what it asked for, a reply once given, and its standing as past or not past the claim. */
  predicate ProvEvolves(q: ProvRequest, q': ProvRequest) {
    && q'.serial == q.serial && q'.csr == q.csr && q'.token == q.token
    && (q.phase.ProvReplied? || q.phase.ProvRejected? || q.phase.ProvAbandoned? ==> q' == q)
    && (ProvPast(q) ==> ProvPast(q'))
  }

  predicate EnrollEvolves(q: EnrollRequest, q': EnrollRequest) {
    && q'.peer == q.peer && q'.serialField == q.serialField && q'.csr == q.csr && q'.firmware == q.firmware
    && (q.phase.Replied? || q.phase.Rejected? || q.phase.Abandoned? ==> q' == q)
    && (Past(q) ==> Past(q'))
  }

  ghost predicate RequestsGrow(v: Server, v': Server) {
    && |v.prov| <= |v'.prov|
    && (forall r :: 0 <= r < |v.prov| ==> ProvEvolves(v.prov[r], v'.prov[r]))
    && |v.enroll| <= |v'.enroll|
    && (forall r :: 0 <= r < |v.enroll| ==> EnrollEvolves(v.enroll[r], v'.enroll[r]))
  }

  lemma ClaimProvGrowsTables(v: Server, r: nat, now: int)
    requires r < |v.prov|
    ensures TablesGrow(v.tables, DoClaimProv(v, r, now).tables)
  {
  }

  lemma CreateGrowsTables(v: Server, r: nat, id: string, now: int)
    requires r < |v.enroll| && v.enroll[r].phase.Signed?
    ensures TablesGrow(v.tables, DoCreate(v, r, id, now).tables)
  {
  }

  lemma StepGrowsTables(v: Server, st: ServerStep)
    ensures TablesGrow(v.tables, ServerNext(v, st).tables)
  {
    match st
    case ClaimProv(r, now) =>
      if r < |v.prov| {
        ClaimProvGrowsTables(v, r, now);
      }
    case CreateEnroll(r, id, now) =>
      if r < |v.enroll| && v.enroll[r].phase.Signed? {
        CreateGrowsTables(v, r, id, now);
      }
    case _ =>
  }

  /** Only provisioned_at of a manifest row ever changes, and only to be set. */
  lemma StepKeepsManifestRow(v: Server, st: ServerStep, serial: string)
    requires serial in v.tables.manifest
    ensures var t := ServerNext(v, st).tables;
            && serial in t.manifest && t.manifest[serial].token == v.tables.manifest[serial].token
            && t.manifest[serial].model == v.tables.manifest[serial].model
            && (Provisioned(v.tables, serial) ==> Provisioned(t, serial))
  {
  }

  lemma StepEvolvesProv(v: Server, st: ServerStep, r: nat)
    requires r < |v.prov|
    ensures |v.prov| <= |ServerNext(v, st).prov| && ProvEvolves(v.prov[r], ServerNext(v, st).prov[r])
  {
  }

  lemma StepEvolvesEnroll(v: Server, st: ServerStep, r: nat)
    requires r < |v.enroll|
    ensures |v.enroll| <= |ServerNext(v, st).enroll| && EnrollEvolves(v.enroll[r], ServerNext(v, st).enroll[r])
  {
  }

  lemma StepGrowsLengths(v: Server, st: ServerStep)
    ensures |v.prov| <= |ServerNext(v, st).prov| && |v.enroll| <= |ServerNext(v, st).enroll|
  {
  }

  lemma StepGrowsRequests(v: Server, st: ServerStep)
    ensures RequestsGrow(v, ServerNext(v, st))
  {
    StepGrowsLengths(v, st);
    forall r | 0 <= r < |v.prov| ensures ProvEvolves(v.prov[r], ServerNext(v, st).prov[r]) {
      StepEvolvesProv(v, st, r);
    }
    forall r | 0 <= r < |v.enroll| ensures EnrollEvolves(v.enroll[r], ServerNext(v, st).enroll[r]) {
      StepEvolvesEnroll(v, st, r);
    }
  }

  // One request at a time: it stays, it is stopped, or its own handler moves it.

  lemma ProvMoves(v: Server, st: ServerStep, r: nat)
    requires r < |v.prov|
    ensures r < |ServerNext(v, st).prov|
    ensures var q' := ServerNext(v, st).prov[r];
            || q' == v.prov[r]
            || (exists why :: q' == StopProv(v.prov[r], why))
            || (st.ClaimProv? && st.r == r && v.prov[r].phase.ProvArrived?)
            || (st.SignProv? && st.r == r && v.prov[r].phase.ProvClaimed?)
  {
    var q' := ServerNext(v, st).prov[r];
    if st.DropProv? && st.r == r {
      assert q' == StopProv(v.prov[r], st.why);
    } else if st.Crash? {
      assert q' == StopProv(v.prov[r], Halt);
    }
  }

  lemma EnrollMoves(v: Server, st: ServerStep, r: nat)
    requires r < |v.enroll|
    ensures r < |ServerNext(v, st).enroll|
    ensures var q' := ServerNext(v, st).enroll[r];
            || q' == v.enroll[r]
            || (exists why :: q' == StopEnroll(v.enroll[r], why))
            || (st.ClaimEnroll? && st.r == r && v.enroll[r].phase.Arrived?)
            || (st.SignEnroll? && st.r == r && v.enroll[r].phase.Claimed?)
            || (st.CreateEnroll? && st.r == r && v.enroll[r].phase.Signed?)
  {
    var q' := ServerNext(v, st).enroll[r];
    if st.DropEnroll? && st.r == r {
      assert q' == StopEnroll(v.enroll[r], st.why);
    } else if st.Crash? {
      assert q' == StopEnroll(v.enroll[r], Halt);
    }
  }

  lemma NewcomersWait(v: Server, st: ServerStep)
    ensures forall r :: |v.prov| <= r < |ServerNext(v, st).prov| ==> ServerNext(v, st).prov[r].phase.ProvArrived?
    ensures forall r :: |v.enroll| <= r < |ServerNext(v, st).enroll| ==> ServerNext(v, st).enroll[r].phase.Arrived?
  {
  }

  lemma ClaimProvIsOk(v: Server, r: nat, now: int)
    requires r < |v.prov| && v.prov[r].phase.ProvArrived?
    ensures ProvOk(DoClaimProv(v, r, now), r)
    ensures ProvPast(DoClaimProv(v, r, now).prov[r]) ==> !Provisioned(v.tables, v.prov[r].serial)
  {
  }

  lemma SignProvIsOk(v: Server, r: nat)
    requires r < |v.prov| && v.prov[r].phase.ProvClaimed? && ProvOk(v, r)
    ensures ProvOk(DoSignProv(v, r), r)
  {
  }

  lemma StepKeepsProv(v: Server, st: ServerStep, r: nat)
    requires r < |ServerNext(v, st).prov|
    requires r < |v.prov| ==> ProvOk(v, r)
    ensures ProvOk(ServerNext(v, st), r)
  {
    NewcomersWait(v, st);
    if r < |v.prov| {
      ProvMoves(v, st, r);
      StepGrowsTables(v, st);
      if st.ClaimProv? && st.r == r && v.prov[r].phase.ProvArrived? {
        ClaimProvIsOk(v, r, st.now);
      } else if st.SignProv? && st.r == r && v.prov[r].phase.ProvClaimed? {
        SignProvIsOk(v, r);
      }
    }
  }

  lemma ClaimEnrollIsOk(v: Server, r: nat)
    requires r < |v.enroll| && v.enroll[r].phase.Arrived?
    ensures EnrollOk(DoClaimEnroll(v, r), r)
  {
  }

  lemma SignEnrollIsOk(v: Server, r: nat)
    requires r < |v.enroll| && v.enroll[r].phase.Claimed? && EnrollOk(v, r)
    ensures EnrollOk(DoSignEnroll(v, r), r)
  {
  }

  lemma CreateIsOk(v: Server, r: nat, id: string, now: int)
    requires r < |v.enroll| && v.enroll[r].phase.Signed? && EnrollOk(v, r)
    ensures EnrollOk(DoCreate(v, r, id, now), r)
    ensures DoCreate(v, r, id, now).enroll[r].phase.Replied? ==> !HasDevice(v.tables, SerialOf(v.enroll[r]))
  {
  }

  /** A request that stays or is stopped is right about tables that only grew. */
  lemma RestingStaysOk(v: Server, v': Server, r: nat)
    requires r < |v.enroll| && r < |v'.enroll| && EnrollOk(v, r) && TablesGrow(v.tables, v'.tables)
    requires v'.enroll[r] == v.enroll[r] || exists why :: v'.enroll[r] == StopEnroll(v.enroll[r], why)
    ensures EnrollOk(v', r)
  {
  }

  lemma StepKeepsEnroll(v: Server, st: ServerStep, r: nat)
    requires r < |ServerNext(v, st).enroll|
    requires r < |v.enroll| ==> EnrollOk(v, r)
    ensures EnrollOk(ServerNext(v, st), r)
  {
    NewcomersWait(v, st);
    if r < |v.enroll| {
      EnrollMoves(v, st, r);
      StepGrowsTables(v, st);
      if st.ClaimEnroll? && st.r == r && v.enroll[r].phase.Arrived? {
        ClaimEnrollIsOk(v, r);
      } else if st.SignEnroll? && st.r == r && v.enroll[r].phase.Claimed? {
        SignEnrollIsOk(v, r);
      } else if st.CreateEnroll? && st.r == r && v.enroll[r].phase.Signed? {
        CreateIsOk(v, r, st.id, st.now);
      } else {
        RestingStaysOk(v, ServerNext(v, st), r);
      }
    }
  }

  lemma StepKeepsUnique(v: Server, st: ServerStep)
    requires ServerInv(v)
    ensures UniqueSerials(ServerNext(v, st).tables)
  {
  }

  lemma StepKeepsPreEnrolled(v: Server, st: ServerStep, serial: string)
    requires Provisioned(v.tables, serial) ==> serial in v.tables.pre
    ensures Provisioned(ServerNext(v, st).tables, serial) ==> serial in ServerNext(v, st).tables.pre
  {
  }

  lemma NewlyProvisioning(v: Server, st: ServerStep, r: nat)
    requires r < |ServerNext(v, st).prov| && ProvPast(ServerNext(v, st).prov[r])
    requires r < |v.prov| ==> !ProvPast(v.prov[r])
    ensures r < |v.prov| && st.ClaimProv? && st.r == r && !Provisioned(v.tables, v.prov[r].serial)
  {
    NewcomersWait(v, st);
    if r < |v.prov| {
      ProvMoves(v, st, r);
      if st.ClaimProv? && st.r == r && v.prov[r].phase.ProvArrived? {
        ClaimProvIsOk(v, r, st.now);
      }
    }
  }

  lemma NewlyReplied(v: Server, st: ServerStep, r: nat)
    requires r < |ServerNext(v, st).enroll| && ServerNext(v, st).enroll[r].phase.Replied?
    requires r < |v.enroll| ==> EnrollOk(v, r) && !v.enroll[r].phase.Replied?
    ensures r < |v.enroll| && st.CreateEnroll? && st.r == r && !HasDevice(v.tables, SerialOf(v.enroll[r]))
  {
    NewcomersWait(v, st);
    if r < |v.enroll| {
      EnrollMoves(v, st, r);
      if st.CreateEnroll? && st.r == r && v.enroll[r].phase.Signed? {
        CreateIsOk(v, r, st.id, st.now);
      }
    }
  }

  lemma StepKeepsOneProvision(v: Server, st: ServerStep, r: nat, q: nat)
    requires ServerInv(v)
    requires var v' := ServerNext(v, st); r < q < |v'.prov| && ProvPast(v'.prov[r]) && ProvPast(v'.prov[q])
    ensures var v' := ServerNext(v, st); v'.prov[r].serial != v'.prov[q].serial
  {
    if !(r < |v.prov| && ProvPast(v.prov[r])) {
      NewlyProvisioning(v, st, r);
    }
    if !(q < |v.prov| && ProvPast(v.prov[q])) {
      NewlyProvisioning(v, st, q);
    }
    StepEvolvesProv(v, st, r);
    StepEvolvesProv(v, st, q);
    assert ProvOk(v, r) && ProvOk(v, q);
  }

  lemma RepliedHasDevice(v: Server, r: nat)
    requires ServerInv(v) && r < |v.enroll| && v.enroll[r].phase.Replied?
    ensures HasDevice(v.tables, SerialOf(v.enroll[r]))
  {
    assert EnrollOk(v, r);
  }

  lemma StepKeepsOneReply(v: Server, st: ServerStep, r: nat, q: nat)
    requires ServerInv(v)
    requires var v' := ServerNext(v, st);
             r < q < |v'.enroll| && v'.enroll[r].phase.Replied? && v'.enroll[q].phase.Replied?
    ensures var v' := ServerNext(v, st); SerialOf(v'.enroll[r]) != SerialOf(v'.enroll[q])
  {
    if r < |v.enroll| && v.enroll[r].phase.Replied? {
      RepliedHasDevice(v, r);
    } else {
      NewlyReplied(v, st, r);
    }
    if q < |v.enroll| && v.enroll[q].phase.Replied? {
      RepliedHasDevice(v, q);
    } else {
      NewlyReplied(v, st, q);
    }
    StepEvolvesEnroll(v, st, r);
    StepEvolvesEnroll(v, st, q);
  }

  lemma ServerStepKeepsInv(v: Server, st: ServerStep)
    requires ServerInv(v)
    ensures ServerInv(ServerNext(v, st))
  {
    var v' := ServerNext(v, st);
    StepKeepsUnique(v, st);
    forall serial ensures Provisioned(v'.tables, serial) ==> serial in v'.tables.pre {
      StepKeepsPreEnrolled(v, st, serial);
    }
    forall r | 0 <= r < |v'.prov| ensures ProvOk(v', r) {
      StepKeepsProv(v, st, r);
    }
    forall r | 0 <= r < |v'.enroll| ensures EnrollOk(v', r) {
      StepKeepsEnroll(v, st, r);
    }
    forall r, q | 0 <= r < q < |v'.prov| && ProvPast(v'.prov[r]) && ProvPast(v'.prov[q])
      ensures v'.prov[r].serial != v'.prov[q].serial
    {
      StepKeepsOneProvision(v, st, r, q);
    }
    forall r, q | 0 <= r < q < |v'.enroll| && v'.enroll[r].phase.Replied? && v'.enroll[q].phase.Replied?
      ensures SerialOf(v'.enroll[r]) != SerialOf(v'.enroll[q])
    {
      StepKeepsOneReply(v, st, r, q);
    }
  }

  lemma {:induction false} ServerRunKeepsInv(v: Server, steps: seq<ServerStep>)
    requires ServerInv(v)
    ensures ServerInv(ServerRun(v, steps))
    decreases |steps|
  {
    if steps != [] {
      ServerStepKeepsInv(v, steps[0]);
      ServerRunKeepsInv(ServerNext(v, steps[0]), steps[1..]);
    }
  }

  /** However requests interleave, and even when register_serial reopens claims, one reply per serial. */
  lemma OneEnrollResultPerSerial(steps: seq<ServerStep>)
    ensures var v := ServerRun(START, steps);
            && (forall r, q :: 0 <= r < q < |v.enroll| && v.enroll[r].phase.Replied? && v.enroll[q].phase.Replied? ==>
                  SerialOf(v.enroll[r]) != SerialOf(v.enroll[q]))
            && UniqueSerials(v.tables)
            && (forall r :: 0 <= r < |v.enroll| && v.enroll[r].phase.Replied? ==>
                  && v.enroll[r].phase.id in v.tables.devices
                  && v.tables.devices[v.enroll[r].phase.id].cert == v.enroll[r].phase.cert)
  {
    ServerRunKeepsInv(START, steps);
    var v := ServerRun(START, steps);
    forall r | 0 <= r < |v.enroll| && v.enroll[r].phase.Replied?
      ensures v.enroll[r].phase.id in v.tables.devices
              && v.tables.devices[v.enroll[r].phase.id].cert == v.enroll[r].phase.cert
    {
      assert EnrollOk(v, r);
    }
  }

  /**
   * In every run a request past its claim showed a device-CA certificate, and its serial field is empty or
   * names the serial of that certificate.
   */
  lemma PastRequestsNameTheirSerial(steps: seq<ServerStep>, r: nat)
    requires r < |ServerRun(START, steps).enroll|
    requires !ServerRun(START, steps).enroll[r].phase.Arrived? && !ServerRun(START, steps).enroll[r].phase.Rejected?
    ensures var q := ServerRun(START, steps).enroll[r];
            && q.peer.Some? && q.peer.value.issuer == DeviceCa
            && (q.serialField == "" || q.serialField == q.peer.value.cn)
  {
    ServerRunKeepsInv(START, steps);
    assert EnrollOk(ServerRun(START, steps), r);
  }
}
