/** Counting claims in runs without register_serial: none appears from nothing and none is lost track of. */
module Conservation {
  import opened Prelude
  import opened DeviceTables
  import opened ServerProtocol
  import opened Claims
  import opened History

  function ClaimedSerials(t: Tables): set<string> {
    set serial | serial in t.pre && t.pre[serial].claimed
  }

  function ProvisionedSerials(t: Tables): set<string> {
    set serial | serial in t.manifest && t.manifest[serial].provisionedAt.Some?
  }

  function DeviceSerials(t: Tables): set<string> {
    set id | id in t.devices :: t.devices[id].serial
  }

  function PastRequests(v: Server): set<nat> {
    set r: nat | r < |v.enroll| && Past(v.enroll[r])
  }

  function RepliedRequests(v: Server): set<nat> {
    set r: nat | r < |v.enroll| && v.enroll[r].phase.Replied?
  }

  /** Enrollments between the claim and the device row. */
  function InFlight(v: Server): set<nat> {
    set r: nat | r < |v.enroll| && (v.enroll[r].phase.Claimed? || v.enroll[r].phase.Signed?)
  }

  /** Enrollments that failed or stopped after the claim. */
  function Lost(v: Server): set<nat> {
    set r: nat | r < |v.enroll| && v.enroll[r].phase.Abandoned?
  }

  function SerialAt(v: Server, r: nat): string {
    if r < |v.enroll| then SerialOf(v.enroll[r]) else ""
  }

  function IdAt(v: Server, r: nat): string {
    if r < |v.enroll| && v.enroll[r].phase.Replied? then v.enroll[r].phase.id else ""
  }

  lemma ClaimsCounted(v: Server)
    requires ClaimsHeld(v)
    ensures |ClaimedSerials(v.tables)| == |PastRequests(v)|
  {
    forall serial | serial in ClaimedSerials(v.tables)
      ensures exists r :: r in PastRequests(v) && SerialAt(v, r) == serial
    {
      assert IsClaimed(v.tables, serial);
      var r: nat :| Holder(v, serial, r);
      assert r in PastRequests(v) && SerialAt(v, r) == serial;
    }
    BijectionSize(PastRequests(v), ClaimedSerials(v.tables), r => SerialAt(v, r));
  }

  lemma RowsCounted(v: Server)
    requires RowsReplied(v) && ClaimsHeld(v)
    ensures |v.tables.devices| == |RepliedRequests(v)|
  {
    forall id | id in v.tables.devices.Keys ensures exists r :: r in RepliedRequests(v) && IdAt(v, r) == id {
      var r: nat :| RepliedWith(v, id, r);
      assert r in RepliedRequests(v) && IdAt(v, r) == id;
    }
    forall r, q | r in RepliedRequests(v) && q in RepliedRequests(v) && IdAt(v, r) == IdAt(v, q) ensures r == q {
      assert RepliedWith(v, IdAt(v, r), r) && RepliedWith(v, IdAt(v, q), q);
    }
    BijectionSize(RepliedRequests(v), v.tables.devices.Keys, r => IdAt(v, r));
  }

  lemma PastSplits(v: Server)
    ensures |PastRequests(v)| == |RepliedRequests(v)| + |InFlight(v)| + |Lost(v)|
  {
    assert PastRequests(v) == RepliedRequests(v) + InFlight(v) + Lost(v);
    assert |RepliedRequests(v) + InFlight(v)| == |RepliedRequests(v)| + |InFlight(v)|;
  }

  /** claimed = device rows + enrollments in flight past the claim + enrollments lost after it. */
  lemma ClaimsConserved(steps: seq<ServerStep>)
    requires NoRegister(steps)
    ensures var v := ServerRun(START, steps);
            |ClaimedSerials(v.tables)| == |v.tables.devices| + |InFlight(v)| + |Lost(v)|
  {
    RunKeepsRecorded(START, steps);
    var v := ServerRun(START, steps);
    ClaimsCounted(v);
    RowsCounted(v);
    PastSplits(v);
  }

  lemma DevicesAreClaimed(v: Server)
    requires RowsReplied(v) && ClaimsHeld(v)
    ensures DeviceSerials(v.tables) <= ClaimedSerials(v.tables)
  {
    forall serial | serial in DeviceSerials(v.tables) ensures serial in ClaimedSerials(v.tables) {
      var id :| id in v.tables.devices && v.tables.devices[id].serial == serial;
      var r: nat :| RepliedWith(v, id, r);
      assert IsClaimed(v.tables, SerialOf(v.enroll[r]));
    }
  }

  lemma PreIsProvisioned(v: Server)
    requires Recorded(v)
    ensures v.tables.pre.Keys == ProvisionedSerials(v.tables)
  {
    forall serial ensures serial in v.tables.pre <==> Provisioned(v.tables, serial) {
      assert SerialRecorded(v, serial);
    }
  }

  lemma FunnelCounts(t: Tables)
    requires |t.devices| <= |ClaimedSerials(t)| && t.pre.Keys <= t.manifest.Keys
    ensures |t.devices| <= |ClaimedSerials(t)| <= |t.pre| <= |t.manifest|
  {
    SubsetSize(ClaimedSerials(t), t.pre.Keys);
    SubsetSize(t.pre.Keys, t.manifest.Keys);
  }

  /** devices <= claimed <= pre-enrolled = provisioned <= manifest, as sets of serials and so in number. */
  lemma Funnel(steps: seq<ServerStep>)
    requires NoRegister(steps)
    ensures var t := ServerRun(START, steps).tables;
            && DeviceSerials(t) <= ClaimedSerials(t) <= t.pre.Keys == ProvisionedSerials(t) <= t.manifest.Keys
            && |t.devices| <= |ClaimedSerials(t)| <= |t.pre| <= |t.manifest|
  {
    ClaimsConserved(steps);
    RunKeepsRecorded(START, steps);
    var v := ServerRun(START, steps);
    DevicesAreClaimed(v);
    PreIsProvisioned(v);
    FunnelCounts(v.tables);
  }

  lemma SignedHasNoRow(v: Server, r: nat, id: string)
    requires RowsReplied(v) && ClaimsHeld(v)
    requires r < |v.enroll| && v.enroll[r].phase.Signed? && id in v.tables.devices
    ensures v.tables.devices[id].serial != SerialOf(v.enroll[r])
  {
    var q: nat :| RepliedWith(v, id, q);
    assert q < r || r < q;
  }

  /** The device row can only be refused because the drawn id collides: the serial is never already enrolled. */
  lemma AlreadyEnrolledOnlyOnIdCollision(steps: seq<ServerStep>, r: nat, id: string, now: int)
    requires NoRegister(steps)
    requires r < |ServerRun(START, steps).enroll| && ServerRun(START, steps).enroll[r].phase.Signed?
    ensures var v := ServerRun(START, steps); var q := v.enroll[r];
            ServerNext(v, CreateEnroll(r, id, now)).enroll[r].phase ==
              if id in v.tables.devices then Abandoned(Failed(AlreadyEnrolled(SerialOf(q))))
              else Replied(id, q.phase.cert)
  {
    RunKeepsRecorded(START, steps);
    var v := ServerRun(START, steps);
    forall id' | id' in v.tables.devices ensures v.tables.devices[id'].serial != SerialOf(v.enroll[r]) {
      SignedHasNoRow(v, r, id');
    }
  }
}
