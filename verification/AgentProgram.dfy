/** The agent's start-up as a program over its disk, with the power failing after any number of writes. */
module AgentProgram {
  import opened Prelude
  import opened Pki
  import opened AgentDisk

  function ApplyAll(d: Disk, ws: seq<Write>): Disk
    decreases |ws|
  {
    if ws == [] then d else ApplyAll(Apply(d, ws[0]), ws[1..])
  }

  lemma {:induction false} ApplyAllConcat(d: Disk, ws: seq<Write>, us: seq<Write>)
    ensures ApplyAll(d, ws + us) == ApplyAll(ApplyAll(d, ws), us)
    decreases |ws|
  {
    if ws == [] {
      assert ws + us == us;
    } else {
      assert (ws + us)[1..] == ws[1..] + us;
      ApplyAllConcat(Apply(d, ws[0]), ws[1..], us);
    }
  }

  /** The first `n` of `ws`, or all of them. */
  function Cut(ws: seq<Write>, n: nat): seq<Write> {
    if n < |ws| then ws[..n] else ws
  }

  // ── What one start-up wants to write ────────────────────────────────────────

  /** `reply` is None when the call fails or its answer is lost. */
  function ProvisionWrites(d: Disk, key: Key, reply: Option<Cert>): seq<Write> {
    if d.deviceCert.Some? then []
    else [DeviceKey(key)] + (if reply.Some? then [DeviceCert(reply.value)] else [])
  }

  function EnrollPhaseWrites(d: Disk, key: Key, reply: Option<EnrollResponse>): seq<Write> {
    if d.opCert.Some? || d.deviceCert.None? || d.deviceKey.None? then []
    else [OpKey(key)] + (if reply.Some? then EnrollWrites(reply.value) else [])
  }

  function StartupWrites(d: Disk, key1: Key, reply1: Option<Cert>, key2: Key,
                         reply2: Option<EnrollResponse>): seq<Write> {
    var first := ProvisionWrites(d, key1, reply1);
    first + EnrollPhaseWrites(ApplyAll(d, first), key2, reply2)
  }

  /** One start-up: the keys it draws, the answers it gets, and how many writes it lives for. */
  datatype StartUp = StartUp(key1: Key, reply1: Option<Cert>, key2: Key, reply2: Option<EnrollResponse>, power: nat)

  function Plan(d: Disk, u: StartUp): seq<Write> {
    StartupWrites(d, u.key1, u.reply1, u.key2, u.reply2)
  }

  /** The disk a start-up leaves. */
  function After(d: Disk, u: StartUp): Disk {
    ApplyAll(d, Cut(Plan(d, u), u.power))
  }

  /** It lives through all it wants to write and finds every file it needs. */
  predicate GoesOnline(d: Disk, u: StartUp) {
    var d' := After(d, u);
    && |Plan(d, u)| <= u.power && (d.deviceCert.Some? || u.reply1.Some?)
    && d'.opCert.Some? && d'.opKey.Some? && d'.deviceId.Some?
  }

  lemma CutByPhase(d: Disk, u: StartUp)
    ensures var first := ProvisionWrites(d, u.key1, u.reply1); var d1 := ApplyAll(d, first);
            After(d, u) ==
              if u.power < |first| then ApplyAll(d, Cut(first, u.power))
              else ApplyAll(d1, Cut(EnrollPhaseWrites(d1, u.key2, u.reply2), u.power - |first|))
  {
    var first := ProvisionWrites(d, u.key1, u.reply1);
    var second := EnrollPhaseWrites(ApplyAll(d, first), u.key2, u.reply2);
    if u.power < |first| {
      assert Cut(first + second, u.power) == Cut(first, u.power);
    } else {
      assert Cut(first + second, u.power) == first + Cut(second, u.power - |first|);
      ApplyAllConcat(d, first, Cut(second, u.power - |first|));
    }
  }

  /** The certificate, the CA chain and the id, as far as the power lasts. */
  lemma ReplyFiles(d: Disk, resp: EnrollResponse, n: nat)
    ensures ApplyAll(d, Cut(EnrollWrites(resp), n)) ==
              d.(opCert := if n >= 1 then Some(resp.cert) else d.opCert,
                 fleetCa := if n >= 2 then Some(resp.chain) else d.fleetCa,
                 deviceId := if n >= 3 then Some(resp.id) else d.deviceId)
  {
    var ws := Cut(EnrollWrites(resp), n);
    var d1, d2 := d.(opCert := Some(resp.cert)), d.(opCert := Some(resp.cert), fleetCa := Some(resp.chain));
    if n >= 1 {
      assert ApplyAll(d, ws) == ApplyAll(d1, ws[1..]);
    }
    if n >= 2 {
      assert ApplyAll(d1, ws[1..]) == ApplyAll(d2, ws[1..][1..]);
    }
    if n >= 3 {
      assert ApplyAll(d2, ws[1..][1..]) == ApplyAll(d2.(deviceId := Some(resp.id)), ws[1..][1..][1..]);
    }
  }

  lemma ProvisionFields(d: Disk, key: Key, reply: Option<Cert>, n: nat)
    ensures ApplyAll(d, Cut(ProvisionWrites(d, key, reply), n)) ==
              if d.deviceCert.Some? || n == 0 then d
              else d.(deviceKey := Some(key), deviceCert := if n >= 2 then reply else None)
  {
    var ws := Cut(ProvisionWrites(d, key, reply), n);
    var d1 := Apply(d, DeviceKey(key));
    if |ws| == 2 {
      assert ApplyAll(d, ws) == ApplyAll(d1, ws[1..]);
      assert ApplyAll(d1, ws[1..]) == ApplyAll(Apply(d1, DeviceCert(reply.value)), ws[1..][1..]);
    } else if |ws| == 1 {
      assert ws[1..] == [] && ApplyAll(d, ws) == ApplyAll(d1, ws[1..]);
    }
  }

  lemma EnrollFields(d: Disk, key: Key, reply: Option<EnrollResponse>, n: nat)
    ensures ApplyAll(d, Cut(EnrollPhaseWrites(d, key, reply), n)) ==
              if d.opCert.Some? || d.deviceCert.None? || d.deviceKey.None? || n == 0 then d
              else if reply.None? then d.(opKey := Some(key))
              else d.(opKey := Some(key),
                      opCert := if n >= 2 then Some(reply.value.cert) else d.opCert,
                      fleetCa := if n >= 3 then Some(reply.value.chain) else d.fleetCa,
                      deviceId := if n >= 4 then Some(reply.value.id) else d.deviceId)
  {
    var ws := Cut(EnrollPhaseWrites(d, key, reply), n);
    if ws != [] {
      var rest := if reply.Some? then EnrollWrites(reply.value) else [];
      assert ws[1..] == Cut(rest, n - 1);
      if reply.Some? {
        ReplyFiles(Apply(d, OpKey(key)), reply.value, n - 1);
      }
    }
  }

  // ── The program ─────────────────────────────────────────────────────────────

  class RobotAgent {
    var disk: Disk
    /** Writes left before the power fails. */
    var power: nat

    constructor (disk: Disk, power: nat)
      ensures this.disk == disk && this.power == power
    {
      this.disk, this.power := disk, power;
    }

    method Put(w: Write) returns (alive: bool)
      modifies this
      ensures alive <==> old(power) > 0
      ensures disk == (if alive then Apply(old(disk), w) else old(disk))
      ensures power == (if alive then old(power) - 1 else 0)
    {
      alive := power > 0;
      if alive {
        disk, power := Apply(disk, w), power - 1;
      }
    }

    method PutAll(ws: seq<Write>) returns (alive: bool)
      modifies this
      ensures alive <==> |ws| <= old(power)
      ensures disk == ApplyAll(old(disk), Cut(ws, old(power)))
      ensures power == (if alive then old(power) - |ws| else 0)
    {
      alive := true;
      var i := 0;
      while i < |ws|
        invariant 0 <= i <= |ws| && i <= old(power) && power == old(power) - i
        invariant disk == ApplyAll(old(disk), ws[..i])
      {
        alive := Put(ws[i]);
        if !alive {
          return;
        }
        ApplyAllConcat(old(disk), ws[..i], [ws[i]]);
        assert ws[..i] + [ws[i]] == ws[..i + 1];
        i := i + 1;
      }
      assert ws[..i] == ws;
    }

    /** Phase 1: the key file is overwritten before the call, the certificate written after it. */
    method Provision(key: Key, reply: Option<Cert>) returns (ok: bool)
      requires disk.deviceCert.None?
      modifies this
      ensures disk == ApplyAll(old(disk), Cut(ProvisionWrites(old(disk), key, reply), old(power)))
      ensures ok <==> reply.Some? && 2 <= old(power)
      ensures ok ==> power == old(power) - 2
      ensures var n := old(power);
              disk == old(disk).(deviceKey := if n >= 1 then Some(key) else old(disk.deviceKey),
                                 deviceCert := if n >= 2 && reply.Some? then reply else None)
    {
      ok := Put(DeviceKey(key));
      if !ok || reply.None? {
        return false;
      }
      ghost var p1 := power;
      ok := Put(DeviceCert(reply.value));
      ghost var rest := [DeviceCert(reply.value)];
      assert Cut([DeviceKey(key)] + rest, p1 + 1) == [DeviceKey(key)] + Cut(rest, p1);
      ApplyAllConcat(old(disk), [DeviceKey(key)], Cut(rest, p1));
    }

    /** Phase 2, from the key file to device-id. */
    method Enroll(key: Key, reply: Option<EnrollResponse>) returns (ok: bool)
      requires disk.opCert.None? && disk.deviceCert.Some? && disk.deviceKey.Some?
      modifies this
      ensures disk == ApplyAll(old(disk), Cut(EnrollPhaseWrites(old(disk), key, reply), old(power)))
      ensures ok <==> reply.Some? && 4 <= old(power)
      ensures var n := if reply.Some? then old(power) else 0;
              disk == old(disk).(opKey := if old(power) >= 1 then Some(key) else old(disk.opKey),
                                 opCert := if n >= 2 then Some(reply.value.cert) else None,
                                 fleetCa := if n >= 3 then Some(reply.value.chain) else old(disk.fleetCa),
                                 deviceId := if n >= 4 then Some(reply.value.id) else old(disk.deviceId))
    {
      ok := Put(OpKey(key));
      if !ok || reply.None? {
        return false;
      }
      ghost var d1, p1 := disk, power;
      ok := PutAll(EnrollWrites(reply.value));
      ghost var rest := EnrollWrites(reply.value);
      assert Cut([OpKey(key)] + rest, p1 + 1) == [OpKey(key)] + Cut(rest, p1);
      ApplyAllConcat(old(disk), [OpKey(key)], Cut(rest, p1));
      ReplyFiles(d1, reply.value, p1);
    }

    /** Phase gating on file existence; returns the identity the agent goes online with. */
    method Startup(key1: Key, reply1: Option<Cert>, key2: Key, reply2: Option<EnrollResponse>)
      returns (online: Option<(string, Cert, Key)>)
      modifies this
      ensures disk == After(old(disk), StartUp(key1, reply1, key2, reply2, old(power)))
      ensures online.Some? <==> GoesOnline(old(disk), StartUp(key1, reply1, key2, reply2, old(power)))
      ensures online.Some? ==>
                && disk.deviceId == Some(online.value.0) && disk.opCert == Some(online.value.1)
                && disk.opKey == Some(online.value.2)
      ensures old(disk.deviceCert.Some? && disk.opCert.Some?) ==>
                disk == old(disk) && (online.Some? <==> disk.opKey.Some? && disk.deviceId.Some?)
      ensures var n, blank := old(power), old(disk.deviceCert.None?);
              && disk.deviceKey == (if blank && n >= 1 then Some(key1) else old(disk.deviceKey))
              && disk.deviceCert == (if blank then (if n >= 2 then reply1 else None) else old(disk.deviceCert))
      ensures var n := if old(disk.deviceCert.Some?) then old(power) else old(power) - 2;
              var enrolls := n >= 0 && disk.deviceCert.Some? && old(disk.opCert.None?) && disk.deviceKey.Some?;
              && disk.opKey == (if enrolls && n >= 1 then Some(key2) else old(disk.opKey))
              && (if enrolls && reply2.Some? then
                    && disk.opCert == (if n >= 2 then Some(reply2.value.cert) else None)
                    && disk.fleetCa == (if n >= 3 then Some(reply2.value.chain) else old(disk.fleetCa))
                    && disk.deviceId == (if n >= 4 then Some(reply2.value.id) else old(disk.deviceId))
                  else
                    && disk.opCert == old(disk.opCert) && disk.fleetCa == old(disk.fleetCa)
                    && disk.deviceId == old(disk.deviceId))
              && (online.Some? <==>
                    && disk.deviceCert.Some? && disk.opCert.Some? && disk.opKey.Some? && disk.deviceId.Some?
                    && (enrolls ==> n >= 4))
    {
      ghost var u := StartUp(key1, reply1, key2, reply2, power);
      ghost var first := ProvisionWrites(disk, key1, reply1);
      CutByPhase(disk, u);
      if disk.deviceCert.None? {
        var ok := Provision(key1, reply1);
        if !ok {
          assert disk.deviceCert.None?;
          return None;
        }
      }
      assert disk == ApplyAll(old(disk), first) && power == old(power) - |first|;
      ghost var second := EnrollPhaseWrites(disk, key2, reply2);
      assert |Plan(old(disk), u)| == |first| + |second|;
      if disk.opCert.None? {
        if disk.deviceCert.None? || disk.deviceKey.None? {
          return None;
        }
        var ok := Enroll(key2, reply2);
        if !ok {
          return None;
        }
      }
      if disk.opCert.None? || disk.opKey.None? || disk.deviceId.None? {
        return None;
      }
      return Some((disk.deviceId.value, disk.opCert.value, disk.opKey.value));
    }
  }

  // ── Every point of failure ──────────────────────────────────────────────────

  /** Certificates sit beside the keys they certify, and an id never beside a missing certificate. */
  predicate Paired(d: Disk) {
    && (d.deviceCert.Some? ==> d.deviceKey == Some(d.deviceCert.value.key))
    && (d.opCert.Some? ==> d.opKey == Some(d.opCert.value.key))
    && (d.deviceId.Some? ==> d.opCert.Some?)
  }

  /** Replies answer the requests of this start-up, so they certify the keys just written. */
  lemma StartupKeepsPairsAtEveryCut(d: Disk, u: StartUp)
    requires Paired(d)
    requires u.reply1.Some? ==> u.reply1.value.key == u.key1
    requires u.reply2.Some? ==> u.reply2.value.cert.key == u.key2
    ensures Paired(After(d, u))
  {
    var first := ProvisionWrites(d, u.key1, u.reply1);
    CutByPhase(d, u);
    ProvisionFields(d, u.key1, u.reply1, u.power);
    ProvisionFields(d, u.key1, u.reply1, |first|);
    if u.power >= |first| {
      EnrollFields(ApplyAll(d, first), u.key2, u.reply2, u.power - |first|);
    }
  }
}
