/**
 * What every run without register_serial keeps: claims are conserved, a serial's stage never falls, and
 * every enrollment result has its whole chain of causes in the run.
 */
module Claims {
  import opened DeviceTables
  import opened ServerProtocol

  predicate NoRegister(steps: seq<ServerStep>) {
    forall st :: st in steps ==> !st.Register?
  }

  // ── Who holds a claim ───────────────────────────────────────────────────────

  ghost predicate Holder(v: Server, serial: string, r: nat) {
    r < |v.enroll| && Past(v.enroll[r]) && SerialOf(v.enroll[r]) == serial
  }

  ghost predicate ClaimsHeld(v: Server) {
    && (forall r :: 0 <= r < |v.enroll| && Past(v.enroll[r]) ==> IsClaimed(v.tables, SerialOf(v.enroll[r])))
    && (forall r, q :: 0 <= r < q < |v.enroll| && Past(v.enroll[r]) && Past(v.enroll[q]) ==>
          SerialOf(v.enroll[r]) != SerialOf(v.enroll[q]))
    && (forall serial :: IsClaimed(v.tables, serial) ==> exists r: nat :: Holder(v, serial, r))
  }

  ghost predicate RepliedWith(v: Server, id: string, r: nat) {
    && r < |v.enroll| && v.enroll[r].phase.Replied? && v.enroll[r].phase.id == id
    && id in v.tables.devices && SerialOf(v.enroll[r]) == v.tables.devices[id].serial
  }

  ghost predicate RowsReplied(v: Server) {
    && (forall id :: id in v.tables.devices ==> exists r: nat :: RepliedWith(v, id, r))
    && (forall r :: 0 <= r < |v.enroll| && v.enroll[r].phase.Replied? ==> RepliedWith(v, v.enroll[r].phase.id, r))
  }

  // ── What one step does to claims, requests and rows ─────────────────────────

  /** Request `r` wins the claim for its serial in this step. */
  ghost predicate Wins(v: Server, v': Server, r: nat) {
    && r < |v.enroll| == |v'.enroll| && v.enroll[r].phase.Arrived? && v'.enroll[r].phase.Claimed?
    && SerialOf(v'.enroll[r]) == SerialOf(v.enroll[r])
    && !IsClaimed(v.tables, SerialOf(v.enroll[r])) && IsClaimed(v'.tables, SerialOf(v.enroll[r]))
  }

  ghost predicate ClaimStep(v: Server, v': Server) {
    && |v.enroll| <= |v'.enroll|
    && (forall r :: 0 <= r < |v.enroll| ==> EnrollEvolves(v.enroll[r], v'.enroll[r]))
    && (forall serial :: IsClaimed(v.tables, serial) ==> IsClaimed(v'.tables, serial))
    && (forall r: nat :: r < |v'.enroll| && Past(v'.enroll[r]) ==>
          (r < |v.enroll| && Past(v.enroll[r])) || Wins(v, v', r))
    && (forall serial :: IsClaimed(v'.tables, serial) && !IsClaimed(v.tables, serial) ==>
          exists r: nat :: Wins(v, v', r) && SerialOf(v.enroll[r]) == serial)
    && (forall r: nat, q: nat :: Wins(v, v', r) && Wins(v, v', q) ==> r == q)
  }

  lemma NewlyPast(v: Server, st: ServerStep, r: nat)
    requires !st.Register?
    requires r < |ServerNext(v, st).enroll| && Past(ServerNext(v, st).enroll[r])
    ensures (r < |v.enroll| && Past(v.enroll[r])) || (st == ClaimEnroll(r) && Wins(v, ServerNext(v, st), r))
  {
  }

  lemma NewlyClaimed(v: Server, st: ServerStep, serial: string)
    requires !st.Register?
    ensures IsClaimed(v.tables, serial) ==> IsClaimed(ServerNext(v, st).tables, serial)
    ensures IsClaimed(ServerNext(v, st).tables, serial) && !IsClaimed(v.tables, serial) ==>
              st.ClaimEnroll? && Wins(v, ServerNext(v, st), st.r) && SerialOf(v.enroll[st.r]) == serial
  {
  }

  lemma StepIsClaimStep(v: Server, st: ServerStep)
    requires !st.Register?
    ensures ClaimStep(v, ServerNext(v, st))
  {
    var v' := ServerNext(v, st);
    StepGrowsRequests(v, st);
    forall serial ensures IsClaimed(v.tables, serial) ==> IsClaimed(v'.tables, serial) {
      NewlyClaimed(v, st, serial);
    }
    forall r: nat | r < |v'.enroll| && Past(v'.enroll[r])
      ensures (r < |v.enroll| && Past(v.enroll[r])) || Wins(v, v', r)
    {
      NewlyPast(v, st, r);
    }
    forall serial | IsClaimed(v'.tables, serial) && !IsClaimed(v.tables, serial)
      ensures exists r: nat :: Wins(v, v', r) && SerialOf(v.enroll[r]) == serial
    {
      NewlyClaimed(v, st, serial);
    }
    forall r: nat, q: nat | Wins(v, v', r) && Wins(v, v', q) ensures r == q {
      NewlyPast(v, st, r);
      NewlyPast(v, st, q);
    }
  }

  lemma ClaimStepKeepsOwners(v: Server, v': Server, r: nat, q: nat)
    requires ClaimsHeld(v) && ClaimStep(v, v')
    requires r < q < |v'.enroll| && Past(v'.enroll[r]) && Past(v'.enroll[q])
    ensures SerialOf(v'.enroll[r]) != SerialOf(v'.enroll[q])
  {
    assert (r < |v.enroll| && Past(v.enroll[r])) || Wins(v, v', r);
    assert (q < |v.enroll| && Past(v.enroll[q])) || Wins(v, v', q);
  }

  lemma ClaimStepKeepsHolder(v: Server, v': Server, serial: string)
    requires ClaimsHeld(v) && ClaimStep(v, v') && IsClaimed(v'.tables, serial)
    ensures exists r: nat :: Holder(v', serial, r)
  {
    if IsClaimed(v.tables, serial) {
      var r: nat :| Holder(v, serial, r);
      assert Holder(v', serial, r);
    } else {
      var r: nat :| Wins(v, v', r) && SerialOf(v.enroll[r]) == serial;
      assert Holder(v', serial, r);
    }
  }

  lemma ClaimStepKeepsClaims(v: Server, v': Server)
    requires ClaimsHeld(v) && ClaimStep(v, v')
    ensures ClaimsHeld(v')
  {
    forall r, q | 0 <= r < q < |v'.enroll| && Past(v'.enroll[r]) && Past(v'.enroll[q])
      ensures SerialOf(v'.enroll[r]) != SerialOf(v'.enroll[q])
    {
      ClaimStepKeepsOwners(v, v', r, q);
    }
    forall serial | IsClaimed(v'.tables, serial) ensures exists r: nat :: Holder(v', serial, r) {
      ClaimStepKeepsHolder(v, v', serial);
    }
    forall r | 0 <= r < |v'.enroll| && Past(v'.enroll[r]) ensures IsClaimed(v'.tables, SerialOf(v'.enroll[r])) {
      assert (r < |v.enroll| && Past(v.enroll[r])) || Wins(v, v', r);
    }
  }

  ghost predicate RowStep(v: Server, v': Server) {
    && |v.enroll| <= |v'.enroll|
    && (forall r :: 0 <= r < |v.enroll| ==> EnrollEvolves(v.enroll[r], v'.enroll[r]))
    && TablesGrow(v.tables, v'.tables)
    && (forall id :: id in v'.tables.devices && id !in v.tables.devices ==> exists r: nat :: RepliedWith(v', id, r))
    && (forall r: nat :: r < |v'.enroll| && v'.enroll[r].phase.Replied? ==>
          (r < |v.enroll| && v.enroll[r].phase.Replied?) || RepliedWith(v', v'.enroll[r].phase.id, r))
  }

  lemma NewRow(v: Server, st: ServerStep, id: string)
    requires id in ServerNext(v, st).tables.devices && id !in v.tables.devices
    ensures st.CreateEnroll? && RepliedWith(ServerNext(v, st), id, st.r)
  {
  }

  lemma NewReply(v: Server, st: ServerStep, r: nat)
    requires r < |ServerNext(v, st).enroll| && ServerNext(v, st).enroll[r].phase.Replied?
    requires !(r < |v.enroll| && v.enroll[r].phase.Replied?)
    ensures RepliedWith(ServerNext(v, st), ServerNext(v, st).enroll[r].phase.id, r)
  {
  }

  lemma StepIsRowStep(v: Server, st: ServerStep)
    ensures RowStep(v, ServerNext(v, st))
  {
    var v' := ServerNext(v, st);
    StepGrowsRequests(v, st);
    StepGrowsTables(v, st);
    forall id | id in v'.tables.devices && id !in v.tables.devices ensures exists r: nat :: RepliedWith(v', id, r) {
      NewRow(v, st, id);
    }
    forall r: nat | r < |v'.enroll| && v'.enroll[r].phase.Replied?
      ensures (r < |v.enroll| && v.enroll[r].phase.Replied?) || RepliedWith(v', v'.enroll[r].phase.id, r)
    {
      if !(r < |v.enroll| && v.enroll[r].phase.Replied?) {
        NewReply(v, st, r);
      }
    }
  }

  lemma RowStepKeepsRows(v: Server, v': Server)
    requires RowsReplied(v) && RowStep(v, v')
    ensures RowsReplied(v')
  {
    forall id | id in v'.tables.devices ensures exists r: nat :: RepliedWith(v', id, r) {
      if id in v.tables.devices {
        var r: nat :| RepliedWith(v, id, r);
        assert RepliedWith(v', id, r);
      }
    }
    forall r: nat | r < |v'.enroll| && v'.enroll[r].phase.Replied? ensures RepliedWith(v', v'.enroll[r].phase.id, r) {
      if r < |v.enroll| && v.enroll[r].phase.Replied? {
        assert RepliedWith(v, v.enroll[r].phase.id, r);
      }
    }
  }

  /** Rows and replies go together over every run, register_serial included. */
  lemma {:induction false} RunKeepsRows(v: Server, steps: seq<ServerStep>)
    requires RowsReplied(v)
    ensures RowsReplied(ServerRun(v, steps))
    decreases |steps|
  {
    if steps != [] {
      StepIsRowStep(v, steps[0]);
      RowStepKeepsRows(v, ServerNext(v, steps[0]));
      RunKeepsRows(ServerNext(v, steps[0]), steps[1..]);
    }
  }

  // ── Stages ──────────────────────────────────────────────────────────────────

  /** 0 unknown, 1 seeded, 2 provisioned, 3 claimed, 4 enrolled. */
  function Stage(t: Tables, serial: string): nat {
    if HasDevice(t, serial) then 4
    else if IsClaimed(t, serial) then 3
    else if serial in t.pre then 2
    else if serial in t.manifest then 1
    else 0
  }

  lemma StepKeepsDevice(v: Server, st: ServerStep, serial: string)
    requires HasDevice(v.tables, serial)
    ensures HasDevice(ServerNext(v, st).tables, serial)
  {
    StepGrowsTables(v, st);
    var id :| id in v.tables.devices && v.tables.devices[id].serial == serial;
    assert id in ServerNext(v, st).tables.devices && ServerNext(v, st).tables.devices[id].serial == serial;
  }

  lemma StepKeepsKnown(v: Server, st: ServerStep, serial: string)
    ensures serial in v.tables.manifest ==> serial in ServerNext(v, st).tables.manifest
    ensures serial in v.tables.pre ==> serial in ServerNext(v, st).tables.pre
  {
  }

  lemma RegisterMovesStage(t: Tables, serial: string, model: string)
    ensures Stage(RegisterSerial(t, serial, model), serial) < Stage(t, serial) <==> Stage(t, serial) == 3
    ensures forall other :: other != serial ==> Stage(RegisterSerial(t, serial, model), other) == Stage(t, other)
  {
    var t' := RegisterSerial(t, serial, model);
    assert forall other :: HasDevice(t', other) == HasDevice(t, other);
  }

  /** The stage of a serial falls in one step exactly when register_serial reopens a claim without a device row. */
  lemma StageFallsOnlyOnReopening(v: Server, st: ServerStep, serial: string)
    ensures Stage(ServerNext(v, st).tables, serial) < Stage(v.tables, serial)
       <==> (st.Register? && st.serial == serial && Stage(v.tables, serial) == 3)
  {
    if st.Register? {
      RegisterMovesStage(v.tables, st.serial, st.model);
    } else {
      StepKeepsKnown(v, st, serial);
      NewlyClaimed(v, st, serial);
      if HasDevice(v.tables, serial) {
        StepKeepsDevice(v, st, serial);
      }
    }
  }

  lemma {:induction false} StageNeverFalls(v: Server, steps: seq<ServerStep>, serial: string)
    requires NoRegister(steps)
    ensures Stage(v.tables, serial) <= Stage(ServerRun(v, steps).tables, serial)
    decreases |steps|
  {
    if steps != [] {
      StageFallsOnlyOnReopening(v, steps[0], serial);
      StageNeverFalls(ServerNext(v, steps[0]), steps[1..], serial);
    }
  }
}
