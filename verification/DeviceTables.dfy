/** The three tables of the device service and the effect of each store call as one atomic step. */
module DeviceTables {
  import opened Prelude
  import opened Pki

  datatype Error =
    | NotFound(name: string)
    | AlreadyEnrolled(name: string)
    | NotPreEnrolled(name: string)
    | SerialAlreadyClaimed(name: string)
    | DeviceNotActive(status: string)
    | SerialMismatch(cert: string, request: string)
    | CertVerification
    | NotInManifest(name: string)
    | InvalidProvisionToken(name: string)
    | AlreadyProvisioned(name: string)
    | InvalidArgument
    | Db
    | PkiError

  datatype ManifestRow = ManifestRow(model: string, token: string, provisionedAt: Option<int>)

  datatype PreRow = PreRow(model: string, claimed: bool)

  datatype DeviceRow = DeviceRow(serial: string, model: string, firmware: string, status: string,
                                 cert: Cert, enrolledAt: int, lastSeenAt: int)

  datatype NewDevice = NewDevice(serial: string, model: string, firmware: string, cert: Cert)

  datatype Tables = Tables(manifest: map<string, ManifestRow>,
                           pre: map<string, PreRow>,
                           devices: map<string, DeviceRow>)

  const EMPTY := Tables(map[], map[], map[])

  /** What a store call returns and the tables it leaves. */
  datatype Outcome<+T> = Outcome(result: Result<T, Error>, tables: Tables)

  predicate HasDevice(t: Tables, serial: string) {
    exists id | id in t.devices :: t.devices[id].serial == serial
  }

  predicate Provisioned(t: Tables, serial: string) {
    serial in t.manifest && t.manifest[serial].provisionedAt.Some?
  }

  predicate IsClaimed(t: Tables, serial: string) {
    serial in t.pre && t.pre[serial].claimed
  }

  ghost predicate UniqueSerials(t: Tables) {
    forall i, j :: i in t.devices && j in t.devices && t.devices[i].serial == t.devices[j].serial ==> i == j
  }

  // ── The store calls ─────────────────────────────────────────────────────────

  /** INSERT OR IGNORE: the first row for a serial stays. */
  function SeedManifest(t: Tables, serial: string, model: string, token: string): Tables {
    if serial in t.manifest then t
    else t.(manifest := t.manifest[serial := ManifestRow(model, token, None)])
  }

  function ClaimManifest(t: Tables, serial: string, token: string, now: int): Outcome<string> {
    if serial !in t.manifest then Outcome(Failure(NotInManifest(serial)), t)
    else if t.manifest[serial].token != token then Outcome(Failure(InvalidProvisionToken(serial)), t)
    else if t.manifest[serial].provisionedAt.Some? then Outcome(Failure(AlreadyProvisioned(serial)), t)
    else
      var row := t.manifest[serial];
      Outcome(Success(row.model),
              t.(manifest := t.manifest[serial := row.(provisionedAt := Some(now))],
                 pre := if serial in t.pre then t.pre else t.pre[serial := PreRow(row.model, false)]))
  }

  function ClaimSerial(t: Tables, serial: string): Outcome<string> {
    if serial !in t.pre then Outcome(Failure(NotPreEnrolled(serial)), t)
    else if t.pre[serial].claimed then Outcome(Failure(SerialAlreadyClaimed(serial)), t)
    else Outcome(Success(t.pre[serial].model),
                 t.(pre := t.pre[serial := t.pre[serial].(claimed := true)]))
  }

  /** Both the primary key and the UNIQUE serial raise the same constraint error. */
  function CreateDevice(t: Tables, id: string, d: NewDevice, now: int): Outcome<string> {
    if id in t.devices || HasDevice(t, d.serial) then Outcome(Failure(AlreadyEnrolled(d.serial)), t)
    else Outcome(Success(id),
                 t.(devices := t.devices[id := DeviceRow(d.serial, d.model, d.firmware, "active", d.cert, now, now)]))
  }

  function SetStatus(t: Tables, id: string, status: string): Outcome<()> {
    if id !in t.devices then Outcome(Failure(NotFound(id)), t)
    else Outcome(Success(()), t.(devices := t.devices[id := t.devices[id].(status := status)]))
  }

  function TouchLastSeen(t: Tables, id: string, now: int): Outcome<()> {
    if id !in t.devices then Outcome(Failure(NotFound(id)), t)
    else Outcome(Success(()), t.(devices := t.devices[id := t.devices[id].(lastSeenAt := now)]))
  }

  /** Upsert that reopens a claim unless a device row for the serial exists. */
  function RegisterSerial(t: Tables, serial: string, model: string): Tables {
    if serial !in t.pre then t.(pre := t.pre[serial := PreRow(model, false)])
    else if HasDevice(t, serial) then t
    else t.(pre := t.pre[serial := t.pre[serial].(claimed := false)])
  }

  // ── The store calls when the engine may fail ────────────────────────────────

  /** `fault` is the failing statement: 0 BEGIN, 1 SELECT, 2 UPDATE, 3 INSERT; above 3, none. */
  function ClaimManifestAt(t: Tables, serial: string, token: string, now: int, fault: nat): Outcome<string> {
    var claim := ClaimManifest(t, serial, token, now);
    if fault <= 1 || (fault <= 3 && claim.result.Success?) then Outcome(Failure(Db), t) else claim
  }

  /** 0 BEGIN, 1 SELECT, 2 UPDATE; above 2, none. */
  function ClaimSerialAt(t: Tables, serial: string, fault: nat): Outcome<string> {
    var claim := ClaimSerial(t, serial);
    if fault <= 1 || (fault <= 2 && claim.result.Success?) then Outcome(Failure(Db), t) else claim
  }

  /** `engineFails`: any error other than a constraint violation. */
  function CreateDeviceAt(t: Tables, id: string, d: NewDevice, now: int, engineFails: bool): Outcome<string> {
    if engineFails then Outcome(Failure(Db), t) else CreateDevice(t, id, d, now)
  }

  /** `t'` differs from `t` in the manifest and pre-enrollment rows of `serial` only. */
  ghost predicate OnlySerialChanged(t: Tables, t': Tables, serial: string) {
    && t'.devices == t.devices
    && t'.manifest - {serial} == t.manifest - {serial}
    && t'.pre - {serial} == t.pre - {serial}
  }
}
