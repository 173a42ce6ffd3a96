/**
 * The event log of a run without register_serial: no event appears without its cause, and none of the
 * once-only events appears twice for a serial.
 */
module History {
  import opened Prelude
  import opened Pki
  import opened DeviceTables
  import opened ServerProtocol
  import opened Claims

  /** The first attempt to seed `serial`. */
  function FirstSeed(log: seq<Event>, serial: string): (r: Option<Event>)
    ensures r.Some? ==> r.value.SeedTried? && r.value.serial == serial && r.value in log
  {
    if log == [] then None
    else if log[0].SeedTried? && log[0].serial == serial then Some(log[0])
    else FirstSeed(log[1..], serial)
  }

  lemma {:induction false} FirstSeedAppend(log: seq<Event>, e: Event, serial: string)
    ensures FirstSeed(log + [e], serial) ==
              if FirstSeed(log, serial).Some? then FirstSeed(log, serial)
              else if e.SeedTried? && e.serial == serial then Some(e) else None
  {
    if log != [] {
      assert (log + [e])[1..] == log[1..] + [e];
      FirstSeedAppend(log[1..], e, serial);
    }
  }

  ghost predicate Spent(log: seq<Event>, serial: string) {
    exists e :: e in log && e.TokenSpent? && e.serial == serial
  }

  ghost predicate SignedFor(log: seq<Event>, serial: string) {
    exists e :: e in log && e.BootstrapSigned? && e.serial == serial
  }

  ghost predicate EnrolledFor(log: seq<Event>, serial: string) {
    exists e :: e in log && e.Enrolled? && e.serial == serial
  }

  /** `e` may come after `log`: its cause is there and `e` is not a repetition. */
  ghost predicate Justified(log: seq<Event>, e: Event) {
    match e
    case SeedTried(_, _, _) => true
    case TokenSpent(serial, model, token) =>
      FirstSeed(log, serial) == Some(SeedTried(serial, model, token)) && !Spent(log, serial)
    case SerialClaimed(serial) => Spent(log, serial) && SerialClaimed(serial) !in log
    case BootstrapSigned(serial, _) => SerialClaimed(serial) in log && !SignedFor(log, serial)
    case Enrolled(serial, _, model) =>
      && SignedFor(log, serial) && !EnrolledFor(log, serial)
      && FirstSeed(log, serial).Some? && FirstSeed(log, serial).value.model == model
  }

  ghost predicate AllJustified(log: seq<Event>) {
    forall i :: 0 <= i < |log| ==> Justified(log[..i], log[i])
  }

  // ── The state agrees with the log ───────────────────────────────────────────

  ghost predicate SerialRecorded(v: Server, serial: string) {
    var t := v.tables;
    && (serial in t.manifest <==> FirstSeed(v.log, serial).Some?)
    && (serial in t.manifest ==>
          FirstSeed(v.log, serial) == Some(SeedTried(serial, t.manifest[serial].model, t.manifest[serial].token)))
    && (Provisioned(t, serial) <==> Spent(v.log, serial))
    && (Provisioned(t, serial) <==> serial in t.pre)
    && (serial in t.pre ==> t.pre[serial].model == t.manifest[serial].model)
    && (IsClaimed(t, serial) <==> SerialClaimed(serial) in v.log)
    && (EnrolledFor(v.log, serial) ==> HasDevice(t, serial))
  }

  ghost predicate RequestRecorded(v: Server, r: nat)
    requires r < |v.enroll|
  {
    var q := v.enroll[r];
    var serial := SerialOf(q);
    && (q.phase.Claimed? || q.phase.Signed? ==>
        serial in v.tables.manifest && q.phase.model == v.tables.manifest[serial].model)
    && (q.phase.Signed? ==> BootstrapSigned(serial, q.phase.cert) in v.log)
    && (q.phase.Replied? ==>
          && BootstrapSigned(serial, q.phase.cert) in v.log
          && exists e :: e in v.log && e.Enrolled? && e.serial == serial && e.id == q.phase.id)
  }

  /** Request `r` has taken the one bootstrap signature of its serial. */
  ghost predicate TookSignature(v: Server, serial: string, r: nat) {
    r < |v.enroll| && Past(v.enroll[r]) && !v.enroll[r].phase.Claimed? && SerialOf(v.enroll[r]) == serial
  }

  ghost predicate SignatureHeld(v: Server, serial: string) {
    SignedFor(v.log, serial) ==> exists r: nat :: TookSignature(v, serial, r)
  }

  /** A device row carries the model its serial was seeded with. */
  ghost predicate RowModel(v: Server, id: string) {
    id in v.tables.devices ==>
      var row := v.tables.devices[id];
      row.serial in v.tables.manifest && row.model == v.tables.manifest[row.serial].model
  }

  /** The row of an enrollment event is there. */
  ghost predicate EventHasRow(v: Server, e: Event) {
    e.Enrolled? ==> e.id in v.tables.devices && v.tables.devices[e.id].serial == e.serial
  }

  ghost predicate Recorded(v: Server) {
    && ClaimsHeld(v) && RowsReplied(v) && AllJustified(v.log)
    && (forall serial :: SerialRecorded(v, serial))
    && (forall r: nat :: r < |v.enroll| ==> RequestRecorded(v, r))
    && (forall serial :: SignatureHeld(v, serial))
    && (forall id :: RowModel(v, id))
    && (forall e :: e in v.log ==> EventHasRow(v, e))
  }

  // ── One step ────────────────────────────────────────────────────────────────

  /** The event a step appends, if it appends one. */
  function NewEvent(v: Server, st: ServerStep): Option<Event> {
    match st
    case Seed(serial, model, token) => Some(SeedTried(serial, model, token))
    case ClaimProv(r, now) =>
      if r < |v.prov| && v.prov[r].phase.ProvArrived? && DoClaimProv(v, r, now).prov[r].phase.ProvClaimed?
      then Some(TokenSpent(v.prov[r].serial, v.tables.manifest[v.prov[r].serial].model, v.prov[r].token)) else None
    case ClaimEnroll(r) =>
      if r < |v.enroll| && v.enroll[r].phase.Arrived? && DoClaimEnroll(v, r).enroll[r].phase.Claimed?
      then Some(SerialClaimed(SerialOf(v.enroll[r]))) else None
    case SignEnroll(r) =>
      if r < |v.enroll| && v.enroll[r].phase.Claimed? && v.enroll[r].csr.Csr?
      then Some(BootstrapSigned(SerialOf(v.enroll[r]), SignCsr(v.enroll[r].csr, FleetCa, v.stamp).value)) else None
    case CreateEnroll(r, id, now) =>
      if r < |v.enroll| && v.enroll[r].phase.Signed? && DoCreate(v, r, id, now).enroll[r].phase.Replied?
      then Some(Enrolled(SerialOf(v.enroll[r]), id, v.enroll[r].phase.model)) else None
    case _ => None
  }

  lemma LogOfStep(v: Server, st: ServerStep)
    ensures ServerNext(v, st).log == (if NewEvent(v, st).Some? then v.log + [NewEvent(v, st).value] else v.log)
  {
  }

  lemma SpendingIsJustified(v: Server, r: nat, now: int)
    requires r < |v.prov| && SerialRecorded(v, v.prov[r].serial) && NewEvent(v, ClaimProv(r, now)).Some?
    ensures Justified(v.log, NewEvent(v, ClaimProv(r, now)).value)
  {
  }

  lemma ClaimIsJustified(v: Server, r: nat)
    requires r < |v.enroll| && SerialRecorded(v, SerialOf(v.enroll[r])) && NewEvent(v, ClaimEnroll(r)).Some?
    ensures Justified(v.log, NewEvent(v, ClaimEnroll(r)).value)
  {
  }

  lemma SignatureIsJustified(v: Server, r: nat)
    requires r < |v.enroll| && ClaimsHeld(v) && NewEvent(v, SignEnroll(r)).Some?
    requires SerialRecorded(v, SerialOf(v.enroll[r])) && SignatureHeld(v, SerialOf(v.enroll[r]))
    ensures Justified(v.log, NewEvent(v, SignEnroll(r)).value)
  {
  }

  lemma EnrollmentIsJustified(v: Server, r: nat, id: string, now: int)
    requires r < |v.enroll| && NewEvent(v, CreateEnroll(r, id, now)).Some?
    requires SerialRecorded(v, SerialOf(v.enroll[r])) && RequestRecorded(v, r)
    ensures Justified(v.log, NewEvent(v, CreateEnroll(r, id, now)).value)
  {
  }

  lemma StepKeepsJustified(v: Server, st: ServerStep)
    requires Recorded(v)
    ensures AllJustified(ServerNext(v, st).log)
  {
    LogOfStep(v, st);
    if NewEvent(v, st).Some? {
      assert Justified(v.log, NewEvent(v, st).value) by {
        match st
        case ClaimProv(r, now) =>
          assert SerialRecorded(v, v.prov[r].serial);
          SpendingIsJustified(v, r, now);
        case ClaimEnroll(r) =>
          assert SerialRecorded(v, SerialOf(v.enroll[r]));
          ClaimIsJustified(v, r);
        case SignEnroll(r) =>
          assert SerialRecorded(v, SerialOf(v.enroll[r])) && SignatureHeld(v, SerialOf(v.enroll[r]));
          SignatureIsJustified(v, r);
        case CreateEnroll(r, id, now) =>
          assert SerialRecorded(v, SerialOf(v.enroll[r])) && RequestRecorded(v, r);
          EnrollmentIsJustified(v, r, id, now);
        case _ =>
      }
      AppendJustified(v.log, NewEvent(v, st).value);
    }
  }

  /** Event `e` is about `serial`'s own rows. */
  predicate About(e: Option<Event>, serial: string) {
    e.Some? && !e.value.BootstrapSigned? && e.value.serial == serial
  }

  ghost predicate ManifestFollows(t: Tables, e: Option<Event>, t': Tables, serial: string) {
    && (serial in t'.manifest <==> serial in t.manifest || (About(e, serial) && e.value.SeedTried?))
    && (serial in t.manifest ==>
          && t'.manifest[serial].model == t.manifest[serial].model
          && t'.manifest[serial].token == t.manifest[serial].token)
    && (serial !in t.manifest && About(e, serial) && e.value.SeedTried? ==>
          t'.manifest[serial].model == e.value.model && t'.manifest[serial].token == e.value.token)
    && (Provisioned(t', serial) <==> Provisioned(t, serial) || (About(e, serial) && e.value.TokenSpent?))
    && (About(e, serial) && e.value.TokenSpent? ==> serial in t.manifest && t.manifest[serial].model == e.value.model)
  }

  ghost predicate PreFollows(t: Tables, e: Option<Event>, t': Tables, serial: string) {
    && (serial in t'.pre <==> serial in t.pre || (About(e, serial) && e.value.TokenSpent?))
    && (serial in t.pre ==> t'.pre[serial].model == t.pre[serial].model)
    && (serial !in t.pre && About(e, serial) && e.value.TokenSpent? ==> t'.pre[serial].model == e.value.model)
    && (IsClaimed(t', serial) <==> IsClaimed(t, serial) || (About(e, serial) && e.value.SerialClaimed?))
  }

  /** How the rows of `serial` move when event `e` (if any) is appended. */
  ghost predicate RowsFollow(t: Tables, e: Option<Event>, t': Tables, serial: string) {
    && ManifestFollows(t, e, t', serial)
    && PreFollows(t, e, t', serial)
    && (HasDevice(t, serial) || (About(e, serial) && e.value.Enrolled?) ==> HasDevice(t', serial))
  }

  lemma SpendingMovesTables(v: Server, r: nat, now: int, serial: string)
    ensures ManifestFollows(v.tables, NewEvent(v, ClaimProv(r, now)), ServerNext(v, ClaimProv(r, now)).tables, serial)
    ensures PreFollows(v.tables, NewEvent(v, ClaimProv(r, now)), ServerNext(v, ClaimProv(r, now)).tables, serial)
  {
  }

  lemma ClaimMovesPre(v: Server, r: nat, serial: string)
    ensures PreFollows(v.tables, NewEvent(v, ClaimEnroll(r)), ServerNext(v, ClaimEnroll(r)).tables, serial)
  {
  }

  /** The steps that touch neither table. */
  lemma OthersLeaveTables(v: Server, st: ServerStep)
    requires !st.ClaimProv?
    ensures !st.Seed? ==> ServerNext(v, st).tables.manifest == v.tables.manifest
    ensures !st.ClaimEnroll? && !st.Register? ==> ServerNext(v, st).tables.pre == v.tables.pre
    ensures NewEvent(v, st).Some? ==> !NewEvent(v, st).value.TokenSpent?
    ensures NewEvent(v, st).Some? && NewEvent(v, st).value.SeedTried? ==> st.Seed?
    ensures NewEvent(v, st).Some? && NewEvent(v, st).value.SerialClaimed? ==> st.ClaimEnroll?
  {
  }

  lemma StepMovesManifest(v: Server, st: ServerStep, serial: string)
    ensures ManifestFollows(v.tables, NewEvent(v, st), ServerNext(v, st).tables, serial)
  {
    match st
    case ClaimProv(r, now) => SpendingMovesTables(v, r, now, serial);
    case _ => OthersLeaveTables(v, st);
  }

  lemma StepMovesPre(v: Server, st: ServerStep, serial: string)
    requires !st.Register?
    ensures PreFollows(v.tables, NewEvent(v, st), ServerNext(v, st).tables, serial)
  {
    match st
    case ClaimProv(r, now) => SpendingMovesTables(v, r, now, serial);
    case ClaimEnroll(r) => ClaimMovesPre(v, r, serial);
    case _ => OthersLeaveTables(v, st);
  }

  lemma StepMovesRows(v: Server, st: ServerStep, serial: string)
    requires !st.Register?
    ensures RowsFollow(v.tables, NewEvent(v, st), ServerNext(v, st).tables, serial)
  {
    StepMovesManifest(v, st, serial);
    StepMovesPre(v, st, serial);
    StepGrowsTables(v, st);
    var t' := ServerNext(v, st).tables;
    if HasDevice(v.tables, serial) {
      var id :| id in v.tables.devices && v.tables.devices[id].serial == serial;
      assert id in t'.devices && t'.devices[id].serial == serial;
    } else if About(NewEvent(v, st), serial) && NewEvent(v, st).value.Enrolled? {
      assert st.id in t'.devices;
    }
  }

  lemma RowsFollowKeepsRecord(v: Server, e: Option<Event>, v': Server, serial: string)
    requires SerialRecorded(v, serial) && RowsFollow(v.tables, e, v'.tables, serial)
    requires v'.log == (if e.Some? then v.log + [e.value] else v.log)
    ensures SerialRecorded(v', serial)
  {
    if e.Some? {
      FirstSeedAppend(v.log, e.value, serial);
    }
  }

  lemma StepKeepsSerialRecord(v: Server, st: ServerStep, serial: string)
    requires SerialRecorded(v, serial) && !st.Register?
    ensures SerialRecorded(ServerNext(v, st), serial)
  {
    LogOfStep(v, st);
    StepMovesRows(v, st, serial);
    RowsFollowKeepsRecord(v, NewEvent(v, st), ServerNext(v, st), serial);
  }

  /** How request `q` moves when event `e` (if any) is appended. */
  ghost predicate RequestFollows(t: Tables, q: EnrollRequest, e: Option<Event>, q': EnrollRequest) {
    var serial := SerialOf(q);
    && SerialOf(q') == serial
    && (q'.phase == q.phase || !(q'.phase.Claimed? || q'.phase.Signed? || q'.phase.Replied?)
        || (q'.phase.Claimed? && serial in t.pre && q'.phase.model == t.pre[serial].model)
        || (q'.phase.Signed? && q.phase.Claimed? && q'.phase.model == q.phase.model
            && e == Some(BootstrapSigned(serial, q'.phase.cert)))
        || (q'.phase.Replied? && q.phase.Signed? && q'.phase.cert == q.phase.cert
            && e == Some(Enrolled(serial, q'.phase.id, q.phase.model))))
  }

  lemma ClaimMovesRequest(v: Server, r: nat)
    requires r < |v.enroll|
    ensures RequestFollows(v.tables, v.enroll[r], NewEvent(v, ClaimEnroll(r)), ServerNext(v, ClaimEnroll(r)).enroll[r])
  {
  }

  lemma SignMovesRequest(v: Server, r: nat)
    requires r < |v.enroll|
    ensures RequestFollows(v.tables, v.enroll[r], NewEvent(v, SignEnroll(r)), ServerNext(v, SignEnroll(r)).enroll[r])
  {
  }

  lemma CreateMovesRequest(v: Server, r: nat, id: string, now: int)
    requires r < |v.enroll|
    ensures RequestFollows(v.tables, v.enroll[r], NewEvent(v, CreateEnroll(r, id, now)),
                           ServerNext(v, CreateEnroll(r, id, now)).enroll[r])
  {
  }

  lemma StepMovesRequest(v: Server, st: ServerStep, r: nat)
    requires r < |v.enroll|
    ensures r < |ServerNext(v, st).enroll|
    ensures RequestFollows(v.tables, v.enroll[r], NewEvent(v, st), ServerNext(v, st).enroll[r])
  {
    EnrollMoves(v, st, r);
    if st.ClaimEnroll? && st.r == r {
      ClaimMovesRequest(v, r);
    } else if st.SignEnroll? && st.r == r {
      SignMovesRequest(v, r);
    } else if st.CreateEnroll? && st.r == r {
      CreateMovesRequest(v, r, st.id, st.now);
    }
  }

  lemma FollowKeepsRequestRecord(v: Server, e: Option<Event>, v': Server, r: nat)
    requires r < |v.enroll| && r < |v'.enroll|
    requires RequestRecorded(v, r) && SerialRecorded(v, SerialOf(v.enroll[r]))
    requires RequestFollows(v.tables, v.enroll[r], e, v'.enroll[r])
    requires var serial := SerialOf(v.enroll[r]);
             serial in v.tables.manifest ==>
                 serial in v'.tables.manifest && v'.tables.manifest[serial].model == v.tables.manifest[serial].model
    requires v'.log == (if e.Some? then v.log + [e.value] else v.log)
    ensures RequestRecorded(v', r)
  {
    if e.Some? {
      assert e.value in v'.log;
    }
  }

  lemma StepKeepsRequestRecords(v: Server, st: ServerStep)
    requires Recorded(v)
    ensures var v' := ServerNext(v, st); forall r: nat :: r < |v'.enroll| ==> RequestRecorded(v', r)
  {
    var v' := ServerNext(v, st);
    LogOfStep(v, st);
    forall r: nat | r < |v'.enroll| ensures RequestRecorded(v', r) {
      if r < |v.enroll| {
        var serial := SerialOf(v.enroll[r]);
        assert RequestRecorded(v, r) && SerialRecorded(v, serial);
        StepMovesRequest(v, st, r);
        if serial in v.tables.manifest {
          StepKeepsManifestRow(v, st, serial);
        }
        FollowKeepsRequestRecord(v, NewEvent(v, st), v', r);
      } else {
        NewcomersWait(v, st);
      }
    }
  }

  lemma StepKeepsSignature(v: Server, st: ServerStep, serial: string)
    requires SignatureHeld(v, serial)
    ensures SignatureHeld(ServerNext(v, st), serial)
  {
    var v' := ServerNext(v, st);
    LogOfStep(v, st);
    if SignedFor(v.log, serial) {
      var r: nat :| TookSignature(v, serial, r);
      StepEvolvesEnroll(v, st, r);
      assert TookSignature(v', serial, r);
    } else if SignedFor(v'.log, serial) {
      assert TookSignature(v', serial, st.r);
    }
  }

  /** The model of a row never changes. */
  lemma StepKeepsModel(v: Server, st: ServerStep, id: string)
    requires id in v.tables.devices
    ensures id in ServerNext(v, st).tables.devices
    ensures ServerNext(v, st).tables.devices[id].model == v.tables.devices[id].model
    ensures ServerNext(v, st).tables.devices[id].serial == v.tables.devices[id].serial
  {
  }

  /** A new row takes its model from the request, which has it from the claim. */
  lemma NewRowModel(v: Server, r: nat, id: string, now: int)
    requires r < |v.enroll| && v.enroll[r].phase.Signed? && RequestRecorded(v, r)
    requires id in DoCreate(v, r, id, now).tables.devices && id !in v.tables.devices
    ensures RowModel(DoCreate(v, r, id, now), id)
  {
  }

  lemma StepKeepsRowModel(v: Server, st: ServerStep, id: string)
    requires Recorded(v)
    ensures RowModel(ServerNext(v, st), id)
  {
    if id in v.tables.devices {
      assert RowModel(v, id);
      StepKeepsModel(v, st, id);
      StepKeepsManifestRow(v, st, v.tables.devices[id].serial);
    } else if id in ServerNext(v, st).tables.devices {
      NewRow(v, st, id);
      assert RequestRecorded(v, st.r);
      NewRowModel(v, st.r, id, st.now);
    }
  }

  lemma NewEventHasRow(v: Server, st: ServerStep)
    requires NewEvent(v, st).Some?
    ensures EventHasRow(ServerNext(v, st), NewEvent(v, st).value)
  {
  }

  lemma StepKeepsEventRow(v: Server, st: ServerStep, e: Event)
    requires Recorded(v) && e in ServerNext(v, st).log
    ensures EventHasRow(ServerNext(v, st), e)
  {
    LogOfStep(v, st);
    if e in v.log {
      assert EventHasRow(v, e);
      if e.Enrolled? {
        StepKeepsModel(v, st, e.id);
      }
    } else {
      NewEventHasRow(v, st);
    }
  }

  lemma StepKeepsRecorded(v: Server, st: ServerStep)
    requires Recorded(v) && !st.Register?
    ensures Recorded(ServerNext(v, st))
  {
    var v' := ServerNext(v, st);
    StepIsClaimStep(v, st);
    ClaimStepKeepsClaims(v, v');
    StepIsRowStep(v, st);
    RowStepKeepsRows(v, v');
    forall serial ensures SerialRecorded(v', serial) {
      assert SerialRecorded(v, serial);
      StepKeepsSerialRecord(v, st, serial);
    }
    StepKeepsRequestRecords(v, st);
    forall serial ensures SignatureHeld(v', serial) {
      assert SignatureHeld(v, serial);
      StepKeepsSignature(v, st, serial);
    }
    forall id ensures RowModel(v', id) {
      StepKeepsRowModel(v, st, id);
    }
    forall e | e in v'.log ensures EventHasRow(v', e) {
      StepKeepsEventRow(v, st, e);
    }
    StepKeepsJustified(v, st);
  }

  lemma AppendJustified(log: seq<Event>, e: Event)
    requires AllJustified(log) && Justified(log, e)
    ensures AllJustified(log + [e])
  {
    forall i | 0 <= i < |log + [e]| ensures Justified((log + [e])[..i], (log + [e])[i]) {
      assert i < |log| ==> (log + [e])[..i] == log[..i];
      assert i == |log| ==> (log + [e])[..i] == log;
    }
  }

  lemma {:induction false} RunKeepsRecorded(v: Server, steps: seq<ServerStep>)
    requires Recorded(v) && NoRegister(steps)
    ensures Recorded(ServerRun(v, steps))
    decreases |steps|
  {
    if steps != [] {
      StepKeepsRecorded(v, steps[0]);
      RunKeepsRecorded(ServerNext(v, steps[0]), steps[1..]);
    }
  }

  // ── Results ─────────────────────────────────────────────────────────────────

  lemma {:induction false} FirstSeedPrefix(log: seq<Event>, n: nat, serial: string)
    requires n <= |log| && FirstSeed(log[..n], serial).Some?
    ensures FirstSeed(log, serial) == FirstSeed(log[..n], serial)
  {
    if log[0].SeedTried? && log[0].serial == serial {
    } else {
      assert log[..n][1..] == log[1..][..n - 1];
      FirstSeedPrefix(log[1..], n - 1, serial);
    }
  }

  lemma ClaimHasItsCauses(log: seq<Event>, c: nat) returns (a: nat, b: nat)
    requires AllJustified(log) && c < |log| && log[c].SerialClaimed?
    ensures a < b < c && log[a].SeedTried? && FirstSeed(log[..b], log[c].serial) == Some(log[a])
    ensures log[b] == TokenSpent(log[c].serial, log[a].model, log[a].token)
  {
    var serial := log[c].serial;
    assert Justified(log[..c], log[c]);
    var e :| e in log[..c] && e.TokenSpent? && e.serial == serial;
    b := CauseOf(log, c, e);
    assert Justified(log[..b], log[b]);
    a := CauseOf(log, b, FirstSeed(log[..b], serial).value);
  }

  lemma CauseOf(log: seq<Event>, n: nat, e: Event) returns (k: nat)
    requires n <= |log| && e in log[..n]
    ensures k < n && log[k] == e
  {
    k :| 0 <= k < n && log[..n][k] == e;
  }

  lemma EnrollmentHasItsClaim(log: seq<Event>, i: nat) returns (c: nat, d: nat)
    requires AllJustified(log) && i < |log| && log[i].Enrolled?
    ensures c < d < i && log[c] == SerialClaimed(log[i].serial)
    ensures log[d].BootstrapSigned? && log[d].serial == log[i].serial
  {
    assert Justified(log[..i], log[i]);
    var e :| e in log[..i] && e.BootstrapSigned? && e.serial == log[i].serial;
    d := CauseOf(log, i, e);
    assert Justified(log[..d], log[d]);
    c := CauseOf(log, d, SerialClaimed(log[i].serial));
  }

  /** The chain of causes of the enrollment at `i`: seeding, token, claim, signature, in that order. */
  ghost predicate Chain(log: seq<Event>, a: nat, b: nat, c: nat, d: nat, i: nat) {
    && a < b < c < d < i < |log| && log[i].Enrolled?
    && log[a].SeedTried? && FirstSeed(log, log[i].serial) == Some(log[a])
    && log[b] == TokenSpent(log[i].serial, log[a].model, log[a].token)
    && log[c] == SerialClaimed(log[i].serial)
    && log[d].BootstrapSigned? && log[d].serial == log[i].serial
    && log[i].model == log[a].model
  }

  /**
   * Every enrollment in a run without register_serial is preceded, in this order, by the first seeding of
   * its serial, one spending of exactly that token, one claim and one bootstrap signature; and its device
   * row, which stays, has the seeded model.
   */
  lemma EnrollmentHasItsCauses(steps: seq<ServerStep>, i: nat)
    requires NoRegister(steps)
    requires var log := ServerRun(START, steps).log; i < |log| && log[i].Enrolled?
    ensures var v := ServerRun(START, steps);
            exists a: nat, b: nat, c: nat, d: nat ::
              && Chain(v.log, a, b, c, d, i)
              && v.log[i].id in v.tables.devices && v.tables.devices[v.log[i].id].serial == v.log[i].serial
              && v.tables.devices[v.log[i].id].model == v.log[a].model
  {
    RunKeepsRecorded(START, steps);
    var log := ServerRun(START, steps).log;
    var c, d := EnrollmentHasItsClaim(log, i);
    var a, b := ClaimHasItsCauses(log, c);
    assert Justified(log[..i], log[i]);
    FirstSeedPrefix(log, b, log[i].serial);
    FirstSeedPrefix(log, i, log[i].serial);
    assert Chain(log, a, b, c, d, i);
    RowHasSeededModel(ServerRun(START, steps), i);
  }

  lemma RowHasSeededModel(v: Server, i: nat)
    requires Recorded(v) && i < |v.log| && v.log[i].Enrolled? && FirstSeed(v.log, v.log[i].serial).Some?
    ensures v.log[i].id in v.tables.devices && v.tables.devices[v.log[i].id].serial == v.log[i].serial
    ensures v.tables.devices[v.log[i].id].model == FirstSeed(v.log, v.log[i].serial).value.model
  {
    assert v.log[i] in v.log;
    assert EventHasRow(v, v.log[i]) && RowModel(v, v.log[i].id) && SerialRecorded(v, v.log[i].serial);
  }

  /** The events an enrollment consumes. */
  predicate OnceOnly(e: Event) {
    !e.SeedTried?
  }

  predicate SameKind(e: Event, e': Event) {
    && (e.TokenSpent? <==> e'.TokenSpent?) && (e.SerialClaimed? <==> e'.SerialClaimed?)
    && (e.BootstrapSigned? <==> e'.BootstrapSigned?) && (e.Enrolled? <==> e'.Enrolled?)
  }

  /** Per serial: at most one token spent, one claim, one bootstrap signature, one enrollment. */
  lemma NothingHappensTwice(steps: seq<ServerStep>, i: nat, j: nat)
    requires NoRegister(steps)
    requires var log := ServerRun(START, steps).log;
             i < j < |log| && OnceOnly(log[i]) && SameKind(log[i], log[j])
    ensures var log := ServerRun(START, steps).log; log[i].serial != log[j].serial
  {
    RunKeepsRecorded(START, steps);
    var log := ServerRun(START, steps).log;
    assert Justified(log[..j], log[j]);
    assert log[..j][i] == log[i];
  }

  /** Every reply is an enrollment event of the log, and its row carries the seeded model. */
  lemma RepliesAreLogged(steps: seq<ServerStep>, r: nat)
    requires NoRegister(steps)
    requires r < |ServerRun(START, steps).enroll| && ServerRun(START, steps).enroll[r].phase.Replied?
    ensures var v := ServerRun(START, steps); var q := v.enroll[r];
            && (exists e :: e in v.log && e.Enrolled? && e.serial == SerialOf(q) && e.id == q.phase.id)
            && BootstrapSigned(SerialOf(q), q.phase.cert) in v.log
            && q.phase.id in v.tables.devices && SerialOf(q) in v.tables.manifest
            && v.tables.devices[q.phase.id].model == v.tables.manifest[SerialOf(q)].model
  {
    RunKeepsRecorded(START, steps);
    var v := ServerRun(START, steps);
    assert RequestRecorded(v, r) && RepliedWith(v, v.enroll[r].phase.id, r);
    assert RowModel(v, v.enroll[r].phase.id);
  }

  /** Without register_serial, the serial of a request past its claim is claimed, by that request and no other. */
  lemma PastRequestsHoldTheirSerial(steps: seq<ServerStep>, r: nat)
    requires NoRegister(steps) && r < |ServerRun(START, steps).enroll|
    requires !ServerRun(START, steps).enroll[r].phase.Arrived? && !ServerRun(START, steps).enroll[r].phase.Rejected?
    ensures var v := ServerRun(START, steps);
            && v.enroll[r].peer.Some?
            && var serial := v.enroll[r].peer.value.cn;
               && serial in v.tables.pre && v.tables.pre[serial].claimed && SerialClaimed(serial) in v.log
               && forall q :: 0 <= q < |v.enroll| && q != r && v.enroll[q].peer.Some?
                              && v.enroll[q].peer.value.cn == serial ==>
                    v.enroll[q].phase.Arrived? || v.enroll[q].phase.Rejected?
  {
    RunKeepsRecorded(START, steps);
    PastRequestsNameTheirSerial(steps, r);
    var v := ServerRun(START, steps);
    assert IsClaimed(v.tables, SerialOf(v.enroll[r])) && SerialRecorded(v, SerialOf(v.enroll[r]));
  }
}
