/** The robot's credential directory. Which files exist is the only state that survives a reboot. */
module AgentDisk {
  import opened Prelude
  import opened Pki

  datatype Disk = Disk(deviceKey: Option<Key>, deviceCert: Option<Cert>,
                       opKey: Option<Key>, opCert: Option<Cert>,
                       fleetCa: Option<string>, deviceId: Option<string>)

  const BLANK := Disk(None, None, None, None, None, None)

  /** One file written; writing replaces what was there. */
  datatype Write =
    | DeviceKey(key: Key)
    | DeviceCert(cert: Cert)
    | OpKey(key: Key)
    | OpCert(cert: Cert)
    | FleetCaChain(pem: string)
    | DeviceId(id: string)

  function Apply(d: Disk, w: Write): Disk {
    match w
    case DeviceKey(k) => d.(deviceKey := Some(k))
    case DeviceCert(c) => d.(deviceCert := Some(c))
    case OpKey(k) => d.(opKey := Some(k))
    case OpCert(c) => d.(opCert := Some(c))
    case FleetCaChain(p) => d.(fleetCa := Some(p))
    case DeviceId(i) => d.(deviceId := Some(i))
  }

  datatype EnrollResponse = EnrollResponse(id: string, cert: Cert, chain: string)

  /** The files `enroll` writes once the reply is in, in order. */
  function EnrollWrites(resp: EnrollResponse): (ws: seq<Write>)
    ensures |ws| == 3
  {
    [OpCert(resp.cert), FleetCaChain(resp.chain), DeviceId(resp.id)]
  }
}
