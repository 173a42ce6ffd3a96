/** The request handlers of phases 1 and 2, run to completion without interruption. */
module EnrollmentService {
  import opened Prelude
  import opened Pki
  import opened DeviceTables
  import opened DeviceStore
  import opened ServerProtocol

  datatype EnrollResult = EnrollResult(id: string, cert: Cert, chain: string, expiresAt: int)

  const DAY := 86_400

  /**
   * One enrollment as a whole: the returned error or (id, certificate), and the tables it leaves. The
   * engine fails at statement `fault` of the claim, or at the insert if `insertFails`.
   */
  function EnrollOutcome(t: Tables, peer: Option<Cert>, serialField: string, csr: Csr, firmware: string,
                         id: string, now: int, stamp: nat, fault: nat, insertFails: bool): Outcome<(string, Cert)> {
    match CheckPeer(peer, serialField)
    case Failure(e) => Outcome(Failure(e), t)
    case Success(serial) =>
      var claim := ClaimSerialAt(t, serial, fault);
      match claim.result
      case Failure(e) => Outcome(Failure(e), t)
      case Success(model) =>
        match SignCsr(csr, FleetCa, stamp)
        case None => Outcome(Failure(PkiError), claim.tables)
        case Some(cert) =>
          var made := CreateDeviceAt(claim.tables, id, NewDevice(serial, model, firmware, cert), now, insertFails);
          match made.result
          case Failure(e) => Outcome(Failure(e), made.tables)
          case Success(i) => Outcome(Success((i, cert)), made.tables)
  }

  function ProvisionOutcome(t: Tables, serial: string, csr: Csr, token: string, now: int, stamp: nat,
                            fault: nat): Outcome<Cert> {
    if serial == "" || csr.NoCsr? || token == "" then Outcome(Failure(InvalidArgument), t)
    else
      var claim := ClaimManifestAt(t, serial, token, now, fault);
      match claim.result
      case Failure(e) => Outcome(Failure(e), t)
      case Success(_) =>
        match SignCsr(csr, DeviceCa, stamp)
        case None => Outcome(Failure(PkiError), claim.tables)
        case Some(cert) => Outcome(Success(cert), claim.tables)
  }

  /** What a failed enrollment leaves: nothing before the claim, and from then on the spent claim alone. */
  lemma FailedEnrollmentSpendsTheClaim(t: Tables, peer: Option<Cert>, serialField: string, csr: Csr, firmware: string,
                                       id: string, now: int, stamp: nat, fault: nat, insertFails: bool)
    ensures var o := EnrollOutcome(t, peer, serialField, csr, firmware, id, now, stamp, fault, insertFails);
            var claimed := CheckPeer(peer, serialField).Success?
                && ClaimSerialAt(t, CheckPeer(peer, serialField).value, fault).result.Success?;
            o.result.Failure? ==>
              if !claimed then o.tables == t
              else
                var serial := CheckPeer(peer, serialField).value;
                && IsClaimed(o.tables, serial) && OnlySerialChanged(t, o.tables, serial)
                && o.tables.manifest == t.manifest
                && (o.result.error == Db <==> csr.Csr? && insertFails)
  {
  }

  /** How an enrollment request ended, as its handler returns it. */
  function EnrollReply(q: EnrollRequest): Option<Result<(string, Cert), Error>> {
    match q.phase
    case Replied(id, cert) => Some(Success((id, cert)))
    case Rejected(Failed(e)) => Some(Failure(e))
    case Abandoned(Failed(e)) => Some(Failure(e))
    case _ => None
  }

  function ProvReply(q: ProvRequest): Option<Result<Cert, Error>> {
    match q.phase
    case ProvReplied(cert) => Some(Success(cert))
    case ProvRejected(Failed(e)) => Some(Failure(e))
    case ProvAbandoned(Failed(e)) => Some(Failure(e))
    case _ => None
  }

  /** The claim step, or the engine error that takes its place. */
  function ClaimOrError(v: Server, r: nat, fault: nat): ServerStep
    requires r < |v.enroll|
  {
    var peer := CheckPeer(v.enroll[r].peer, v.enroll[r].serialField);
    if peer.Success? && ClaimSerialAt(v.tables, peer.value, fault).result == Failure(Db) then DropEnroll(r, EngineError)
    else ClaimEnroll(r)
  }

  function CreateOrError(r: nat, id: string, now: int, insertFails: bool): ServerStep {
    if insertFails then DropEnroll(r, EngineError) else CreateEnroll(r, id, now)
  }

  /**
   * The protocol's claim, sign and create steps, taken by a waiting request with nothing in between, are
   * one enrollment as a whole, engine errors included, whatever else the server holds.
   */
  lemma EnrollAloneIsEnrollOutcome(v: Server, r: nat, id: string, now: int, fault: nat, insertFails: bool)
    requires r < |v.enroll| && v.enroll[r].phase.Arrived?
    ensures var q := v.enroll[r];
            var o := EnrollOutcome(v.tables, q.peer, q.serialField, q.csr, q.firmware, id, now, v.stamp, fault,
                                   insertFails);
            var v' := ServerNext(ServerNext(ServerNext(v, ClaimOrError(v, r, fault)), SignEnroll(r)),
                                 CreateOrError(r, id, now, insertFails));
            v'.tables == o.tables && r < |v'.enroll| && EnrollReply(v'.enroll[r]) == Some(o.result)
  {
    var v1 := ServerNext(v, ClaimOrError(v, r, fault));
    ClaimAlone(v, r, fault);
    assert r < |v1.enroll|;
    if v1.enroll[r].phase.Claimed? {
      SignAndCreateAlone(v1, r, id, now, insertFails);
    }
  }

  lemma ClaimAlone(v: Server, r: nat, fault: nat)
    requires r < |v.enroll| && v.enroll[r].phase.Arrived?
    ensures var q := v.enroll[r]; var peer := CheckPeer(q.peer, q.serialField);
            var v1 := ServerNext(v, ClaimOrError(v, r, fault));
            && r < |v1.enroll| && v1.stamp == v.stamp
            && match peer
               case Failure(e) => v1 == SetEnroll(v, r, Rejected(Failed(e)))
               case Success(serial) =>
                 var claim := ClaimSerialAt(v.tables, serial, fault);
                 v1.tables == claim.tables && serial == SerialOf(q)
                 && v1.enroll[r] ==
                    q.(phase := if claim.result.Success? then Claimed(claim.result.value)
                                else Rejected(Failed(claim.result.error)))
  {
  }

  lemma SignAndCreateAlone(v: Server, r: nat, id: string, now: int, insertFails: bool)
    requires r < |v.enroll| && v.enroll[r].phase.Claimed?
    ensures var q := v.enroll[r];
            var v' := ServerNext(ServerNext(v, SignEnroll(r)), CreateOrError(r, id, now, insertFails));
            && r < |v'.enroll|
            && match SignCsr(q.csr, FleetCa, v.stamp)
               case None => v'.tables == v.tables && EnrollReply(v'.enroll[r]) == Some(Failure(PkiError))
               case Some(cert) =>
                 var made := CreateDeviceAt(v.tables, id, NewDevice(SerialOf(q), q.phase.model, q.firmware, cert), now,
                                            insertFails);
                 && v'.tables == made.tables
                 && EnrollReply(v'.enroll[r]) ==
                     Some(if made.result.Success? then Success((made.result.value, cert))
                          else Failure(made.result.error))
  {
  }

  /** The protocol's steps for a provisioning request alone, likewise. */
  lemma ProvisionAloneIsProvisionOutcome(v: Server, r: nat, now: int, fault: nat)
    requires r < |v.prov| && v.prov[r].phase.ProvArrived?
    ensures var q := v.prov[r];
            var o := ProvisionOutcome(v.tables, q.serial, q.csr, q.token, now, v.stamp, fault);
            var refused := q.serial == "" || q.csr.NoCsr? || q.token == "";
            var step := if !refused && ClaimManifestAt(v.tables, q.serial, q.token, now, fault).result == Failure(Db)
                        then DropProv(r, EngineError) else ClaimProv(r, now);
            var v' := ServerNext(ServerNext(v, step), SignProv(r));
            v'.tables == o.tables && r < |v'.prov| && ProvReply(v'.prov[r]) == Some(o.result)
  {
  }

  class EnrollmentService {
    const store: SqliteDeviceStore
    const chain: string
    const validityDays: nat

    constructor (store: SqliteDeviceStore, chain: string, validityDays: nat)
      ensures this.store == store && this.chain == chain && this.validityDays == validityDays
    {
      this.store, this.chain, this.validityDays := store, chain, validityDays;
    }

    /** Check, claim, sign, create. */
    method BootstrapEnroll(peer: Option<Cert>, serialField: string, csr: Csr, firmware: string,
                           id: string, now: int, stamp: nat, fault: nat, insertFails: bool)
      returns (r: Result<EnrollResult, Error>)
      requires store.journal.None?
      modifies store
      ensures store.journal.None?
      ensures var o := EnrollOutcome(old(store.Contents()), peer, serialField, csr, firmware, id, now, stamp, fault,
                                     insertFails);
              && store.Contents() == o.tables
              && (r.Failure? <==> o.result.Failure?)
              && (r.Failure? ==> r.error == o.result.error)
              && (r.Success? ==>
                  r.value == EnrollResult(o.result.value.0, o.result.value.1, chain, now + validityDays * DAY))
      ensures peer.None? ==> r == Failure(PkiError)
      ensures peer.Some? && serialField != "" && serialField != peer.value.cn ==>
                r == Failure(SerialMismatch(peer.value.cn, serialField))
      ensures peer.Some? && (serialField == "" || serialField == peer.value.cn) && peer.value.issuer != DeviceCa ==>
                r == Failure(CertVerification)
      ensures store.manifest == old(store.manifest)
      ensures peer.None? || (serialField != "" && serialField != peer.value.cn) || peer.value.issuer != DeviceCa ==>
                store.pre == old(store.pre) && store.devices == old(store.devices)
      ensures peer.Some? && (serialField == "" || serialField == peer.value.cn) && peer.value.issuer == DeviceCa ==>
                var serial, pre, devices := peer.value.cn, old(store.pre), old(store.devices);
                var cert := if csr.Csr? then Cert(csr.cn, csr.key, FleetCa, stamp) else peer.value;
                var claimable := serial in pre && !pre[serial].claimed;
                var taken := id in devices || exists i :: i in devices && devices[i].serial == serial;
                && store.pre ==
                   (if claimable && fault > 2 then pre[serial := PreRow(pre[serial].model, true)] else pre)
                && store.devices ==
                   (if r.Success?
                    then devices[id := DeviceRow(serial, pre[serial].model, firmware, "active", cert, now, now)]
                    else devices)
                && r == (if fault <= 1 then Failure(Db)
                         else if serial !in pre then Failure(NotPreEnrolled(serial))
                         else if pre[serial].claimed then Failure(SerialAlreadyClaimed(serial))
                         else if fault == 2 then Failure(Db)
                         else if !csr.Csr? then Failure(PkiError)
                         else if insertFails then Failure(Db)
                         else if taken then Failure(AlreadyEnrolled(serial))
                         else Success(EnrollResult(id, cert, chain, now + validityDays * 86_400)))
    {
      if peer.None? {
        return Failure(PkiError);
      }
      var serial := peer.value.cn;
      if serialField != "" && serialField != serial {
        return Failure(SerialMismatch(serial, serialField));
      }
      if peer.value.issuer != DeviceCa {
        return Failure(CertVerification);
      }
      var claim := store.LookupAndClaim(serial, fault);
      if claim.Failure? {
        return Failure(claim.error);
      }
      var signed := SignCsr(csr, FleetCa, stamp);
      if signed.None? {
        return Failure(PkiError);
      }
      var created := store.CreateDevice(id, NewDevice(serial, claim.value, firmware, signed.value), now, insertFails);
      if created.Failure? {
        return Failure(created.error);
      }
      return Success(EnrollResult(created.value, signed.value, chain, now + validityDays * DAY));
    }

    /** Renewal reads and signs; it changes no row, and needs the row to be active. */
    method RenewCert(id: string, csr: Csr, now: int, stamp: nat) returns (r: Result<(Cert, int), Error>)
      ensures store.Contents() == old(store.Contents())
      ensures id !in store.devices ==> r == Failure(NotFound(id))
      ensures id in store.devices && store.devices[id].status != "active" ==>
                  r == Failure(DeviceNotActive(store.devices[id].status))
      ensures r.Success? <==> id in store.devices && store.devices[id].status == "active" && csr.Csr?
      ensures r.Success? ==> r.value == (Cert(csr.cn, csr.key, FleetCa, stamp), now + validityDays * 86_400)
      ensures id in store.devices && store.devices[id].status == "active" && !csr.Csr? ==> r == Failure(PkiError)
    {
      if id !in store.devices {
        return Failure(NotFound(id));
      }
      var device := store.devices[id];
      if device.status != "active" {
        return Failure(DeviceNotActive(device.status));
      }
      var signed := SignCsr(csr, FleetCa, stamp);
      if signed.None? {
        return Failure(PkiError);
      }
      return Success((signed.value, now + validityDays * DAY));
    }
  }

  class ProvisioningServer {
    const store: SqliteDeviceStore

    constructor (store: SqliteDeviceStore)
      ensures this.store == store
    {
      this.store := store;
    }

    /** Claim the manifest entry, then sign. */
    method ProvisionDevice(serial: string, csr: Csr, token: string, now: int, stamp: nat, fault: nat)
      returns (r: Result<Cert, Error>)
      requires store.journal.None?
      modifies store
      ensures store.journal.None?
      ensures Outcome(r, store.Contents()) ==
                  ProvisionOutcome(old(store.Contents()), serial, csr, token, now, stamp, fault)
      ensures store.devices == old(store.devices)
      ensures var refused := serial == "" || csr.NoCsr? || token == "";
              var manifest, pre := old(store.manifest), old(store.pre);
              var known := serial in manifest && manifest[serial].token == token;
              var spends := !refused && fault > 3 && known && manifest[serial].provisionedAt.None?;
              && store.manifest ==
                 (if spends then manifest[serial := ManifestRow(manifest[serial].model, token, Some(now))]
                  else manifest)
              && store.pre ==
                 (if spends && serial !in pre then pre[serial := PreRow(manifest[serial].model, false)] else pre)
              && r == (if refused then Failure(InvalidArgument)
                       else if fault <= 1 then Failure(Db)
                       else if serial !in manifest then Failure(NotInManifest(serial))
                       else if manifest[serial].token != token then Failure(InvalidProvisionToken(serial))
                       else if manifest[serial].provisionedAt.Some? then Failure(AlreadyProvisioned(serial))
                       else if fault <= 3 then Failure(Db)
                       else if csr.Csr? then Success(Cert(csr.cn, csr.key, DeviceCa, stamp))
                       else Failure(PkiError))
    {
      if serial == "" || csr.NoCsr? || token == "" {
        return Failure(InvalidArgument);
      }
      var claim := store.ClaimManifestEntry(serial, token, now, fault);
      if claim.Failure? {
        return Failure(claim.error);
      }
      var signed := SignCsr(csr, DeviceCa, stamp);
      if signed.None? {
        return Failure(PkiError);
      }
      return Success(signed.value);
    }
  }
}
