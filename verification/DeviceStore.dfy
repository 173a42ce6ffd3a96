/** The SQLite store: each call runs its statements under one lock, inside BEGIN / COMMIT or ROLLBACK. */
module DeviceStore {
  import opened Prelude
  import opened DeviceTables
  import opened Ordering
  import opened DeviceQuery
  import opened DeviceWalk

  /** `rows` are the records of `ids`, in order. */
  predicate RecordsOf(devices: Devices, ids: seq<string>, rows: seq<Record>) {
    |rows| == |ids| && forall i :: 0 <= i < |ids| ==> ids[i] in devices && rows[i] == Record(ids[i], devices[ids[i]])
  }

  lemma RowsInFields(devices: Devices, ids: seq<string>, rows: seq<Record>,
                     model: Option<string>, status: Option<string>, cursor: Option<string>)
    requires RecordsOf(devices, ids, rows) && Increasing(ids)
    requires forall id :: id in ids ==> id in Selected(devices, model, status, cursor)
    ensures forall i :: 0 <= i < |rows| ==>
              && rows[i].id in devices && rows[i].row == devices[rows[i].id]
              && (model.Some? ==> rows[i].row.model == model.value)
              && (status.Some? ==> rows[i].row.status == status.value)
              && (cursor.Some? ==> Less(cursor.value, rows[i].id))
    ensures forall i, j :: 0 <= i < j < |rows| ==> Less(rows[i].id, rows[j].id)
  {
    forall i | 0 <= i < |rows| ensures rows[i].id in Selected(devices, model, status, cursor) {
      assert ids[i] in ids;
    }
  }

  lemma IdHasRow(devices: Devices, ids: seq<string>, rows: seq<Record>, id: string)
    requires RecordsOf(devices, ids, rows)
    ensures id in ids <==> exists i :: 0 <= i < |rows| && rows[i].id == id
  {
    if id in ids {
      var i :| 0 <= i < |ids| && ids[i] == id;
      assert rows[i].id == id;
    }
  }

  /** What a page of at least one row leaves out lies above its cursor, and a cursor means there is some. */
  lemma PageInFields(devices: Devices, ids: seq<string>, rows: seq<Record>,
                     model: Option<string>, status: Option<string>, limit: int, cursor: Option<string>)
    requires limit >= 1 && ids == Page(devices, model, status, limit, cursor).0 && RecordsOf(devices, ids, rows)
    ensures var next := Page(devices, model, status, limit, cursor).1;
            && |rows| <= limit && (next.Some? ==> |rows| == limit && next.value == rows[limit - 1].id)
            && (forall id ::
                  && id in devices
                  && (model.Some? ==> devices[id].model == model.value)
                  && (status.Some? ==> devices[id].status == status.value)
                  && (cursor.Some? ==> Less(cursor.value, id)) ==>
                    (exists i :: 0 <= i < |rows| && rows[i].id == id) || (next.Some? && Less(next.value, id)))
            && (next.Some? ==> exists id ::
                  && id in devices && Less(next.value, id)
                  && (model.Some? ==> devices[id].model == model.value)
                  && (status.Some? ==> devices[id].status == status.value))
  {
    var next := Page(devices, model, status, limit, cursor).1;
    PageContents(devices, model, status, limit, cursor);
    forall id |
      && id in devices
      && (model.Some? ==> devices[id].model == model.value)
      && (status.Some? ==> devices[id].status == status.value)
      && (cursor.Some? ==> Less(cursor.value, id))
      ensures (exists i :: 0 <= i < |rows| && rows[i].id == id) || (next.Some? && Less(next.value, id))
    {
      SelectedInFields(devices, id, model, status, cursor);
      IdHasRow(devices, ids, rows, id);
    }
  }

  /** query_map over the fetched rows. */
  method MapRows(devices: Devices, ids: seq<string>) returns (rows: seq<Record>)
    requires forall id :: id in ids ==> id in devices
    ensures RecordsOf(devices, ids, rows)
  {
    rows := [];
    var i := 0;
    while i < |ids|
      invariant 0 <= i <= |ids| && RecordsOf(devices, ids[..i], rows)
    {
      rows := rows + [Record(ids[i], devices[ids[i]])];
      i := i + 1;
    }
    assert ids[..i] == ids;
  }

  /** A row beyond the limit is dropped, and the last one kept is the cursor. */
  method PopLookahead(devices: Devices, ghost ids: seq<string>, all: seq<Record>, limit: int)
    returns (rows: seq<Record>, next: Option<string>)
    requires RecordsOf(devices, ids, all)
    ensures RecordsOf(devices, KeepPage(ids, limit).0, rows) && next == KeepPage(ids, limit).1
  {
    rows, next := all, None;
    if |rows| > limit {
      if rows != [] {
        rows := rows[..|rows| - 1];
      }
      if rows != [] {
        next := Some(rows[|rows| - 1].id);
      }
    }
  }

  class SqliteDeviceStore {
    var manifest: map<string, ManifestRow>
    var pre: map<string, PreRow>
    var devices: map<string, DeviceRow>
    /** The image an open transaction rolls back to. */
    var journal: Option<Tables>

    function Contents(): Tables
      reads this
    {
      Tables(manifest, pre, devices)
    }

    constructor ()
      ensures Contents() == EMPTY && journal == None
    {
      manifest, pre, devices, journal := map[], map[], map[], None;
    }

    method Begin()
      requires journal.None?
      modifies this`journal
      ensures journal == Some(Contents())
    {
      journal := Some(Contents());
    }

    method Commit()
      requires journal.Some?
      modifies this`journal
      ensures journal == None
    {
      journal := None;
    }

    method Rollback()
      requires journal.Some?
      modifies this
      ensures journal == None && Contents() == old(journal.value)
    {
      manifest, pre, devices := journal.value.manifest, journal.value.pre, journal.value.devices;
      journal := None;
    }

    method SeedManifest(serial: string, model: string, token: string)
      requires journal.None?
      modifies this`manifest
      ensures Contents() == DeviceTables.SeedManifest(old(Contents()), serial, model, token)
      ensures serial in old(manifest) ==> manifest == old(manifest)
      ensures serial !in old(manifest) ==> manifest == old(manifest)[serial := ManifestRow(model, token, None)]
      ensures pre == old(pre) && devices == old(devices)
    {
      if serial !in manifest {
        manifest := manifest[serial := ManifestRow(model, token, None)];
      }
    }

    /**
     * The engine may fail at statement `fault` (0 BEGIN, 1 SELECT, 2 UPDATE, 3 INSERT; above 3, never).
     * Whatever happens the call is one compare-and-set on the serial's manifest row.
     */
    method ClaimManifestEntry(serial: string, token: string, now: int, fault: nat)
      returns (r: Result<string, Error>)
      requires journal.None?
      modifies this
      ensures journal.None?
      ensures r.Failure? ==> Contents() == old(Contents())
      ensures Outcome(r, Contents()) == ClaimManifestAt(old(Contents()), serial, token, now, fault)
      ensures r.Success? ==>
                old(serial in manifest && manifest[serial].token == token && !Provisioned(Contents(), serial))
      ensures fault > 3 &&
              old(serial in manifest && manifest[serial].token == token && !Provisioned(Contents(), serial)) ==>
                r.Success?
      ensures r.Success? ==> Provisioned(Contents(), serial) && OnlySerialChanged(old(Contents()), Contents(), serial)
      ensures r.Success? && serial in old(pre) ==> pre == old(pre)
      ensures r.Success? && serial !in old(pre) ==>
                !IsClaimed(Contents(), serial) && serial in pre && pre[serial].model == r.value
      ensures devices == old(devices)
      ensures var rows := old(manifest);
              r == (if fault <= 1 then Failure(Db)
                    else if serial !in rows then Failure(NotInManifest(serial))
                    else if rows[serial].token != token then Failure(InvalidProvisionToken(serial))
                    else if rows[serial].provisionedAt.Some? then Failure(AlreadyProvisioned(serial))
                    else if fault <= 3 then Failure(Db)
                    else Success(rows[serial].model))
      ensures manifest == (if r.Success? then old(manifest)[serial := ManifestRow(r.value, token, Some(now))]
                           else old(manifest))
      ensures pre == (if r.Success? && serial !in old(pre) then old(pre)[serial := PreRow(r.value, false)]
                      else old(pre))
    {
      if fault == 0 {
        return Failure(Db);
      }
      Begin();
      if fault == 1 {
        r := Failure(Db);
      } else if serial !in manifest {
        r := Failure(NotInManifest(serial));
      } else if manifest[serial].token != token {
        r := Failure(InvalidProvisionToken(serial));
      } else if manifest[serial].provisionedAt.Some? {
        r := Failure(AlreadyProvisioned(serial));
      } else if fault == 2 {
        r := Failure(Db);
      } else {
        var model := manifest[serial].model;
        manifest := manifest[serial := manifest[serial].(provisionedAt := Some(now))];
        if fault == 3 {
          r := Failure(Db);
        } else {
          if serial !in pre {
            pre := pre[serial := PreRow(model, false)];
          }
          r := Success(model);
        }
      }
      if r.Success? {
        Commit();
      } else {
        Rollback();
      }
    }

    /** As above with 0 BEGIN, 1 SELECT, 2 UPDATE; a compare-and-set on the claimed flag. */
    method LookupAndClaim(serial: string, fault: nat) returns (r: Result<string, Error>)
      requires journal.None?
      modifies this
      ensures journal.None?
      ensures r.Failure? ==> Contents() == old(Contents())
      ensures Outcome(r, Contents()) == ClaimSerialAt(old(Contents()), serial, fault)
      ensures r.Success? ==> old(serial in pre && !IsClaimed(Contents(), serial))
      ensures fault > 2 && old(serial in pre && !IsClaimed(Contents(), serial)) ==> r.Success?
      ensures r.Success? ==> IsClaimed(Contents(), serial) && OnlySerialChanged(old(Contents()), Contents(), serial)
      ensures manifest == old(manifest) && devices == old(devices)
      ensures var rows := old(pre);
              r == (if fault <= 1 then Failure(Db)
                    else if serial !in rows then Failure(NotPreEnrolled(serial))
                    else if rows[serial].claimed then Failure(SerialAlreadyClaimed(serial))
                    else if fault == 2 then Failure(Db)
                    else Success(rows[serial].model))
      ensures pre == (if r.Success? then old(pre)[serial := PreRow(r.value, true)] else old(pre))
    {
      if fault == 0 {
        return Failure(Db);
      }
      Begin();
      if fault == 1 {
        r := Failure(Db);
      } else if serial !in pre {
        r := Failure(NotPreEnrolled(serial));
      } else if pre[serial].claimed {
        r := Failure(SerialAlreadyClaimed(serial));
      } else if fault == 2 {
        r := Failure(Db);
      } else {
        pre := pre[serial := pre[serial].(claimed := true)];
        r := Success(pre[serial].model);
      }
      if r.Success? {
        Commit();
      } else {
        Rollback();
      }
    }

    /** `id` is the fresh UUID; `engineFails` is any error other than a constraint violation. */
    method CreateDevice(id: string, d: NewDevice, now: int, engineFails: bool) returns (r: Result<string, Error>)
      requires journal.None?
      modifies this`devices
      ensures r == Failure(Db) <==> engineFails
      ensures r.Failure? ==> devices == old(devices)
      ensures Outcome(r, Contents()) == CreateDeviceAt(old(Contents()), id, d, now, engineFails)
      ensures old(UniqueSerials(Contents())) ==> UniqueSerials(Contents())
      ensures var taken := id in old(devices) || exists i :: i in old(devices) && old(devices)[i].serial == d.serial;
              !engineFails ==>
                if taken then r == Failure(AlreadyEnrolled(d.serial))
                else
                  && r == Success(id)
                  && devices == old(devices)[
                                  id := DeviceRow(d.serial, d.model, d.firmware, "active", d.cert, now, now)]
    {
      if engineFails {
        return Failure(Db);
      }
      if id in devices || HasDevice(Contents(), d.serial) {
        return Failure(AlreadyEnrolled(d.serial));
      }
      devices := devices[id := DeviceRow(d.serial, d.model, d.firmware, "active", d.cert, now, now)];
      return Success(id);
    }

    method UpdateStatus(id: string, status: string) returns (r: Result<(), Error>)
      modifies this`devices
      ensures Outcome(r, Contents()) == SetStatus(old(Contents()), id, status)
      ensures id !in old(devices) ==> r == Failure(NotFound(id)) && devices == old(devices)
      ensures id in old(devices) ==>
                r == Success(()) && devices == old(devices)[id := old(devices)[id].(status := status)]
    {
      if id !in devices {
        return Failure(NotFound(id));
      }
      devices := devices[id := devices[id].(status := status)];
      return Success(());
    }

    method TouchLastSeen(id: string, now: int) returns (r: Result<(), Error>)
      modifies this`devices
      ensures Outcome(r, Contents()) == DeviceTables.TouchLastSeen(old(Contents()), id, now)
      ensures id !in old(devices) ==> r == Failure(NotFound(id)) && devices == old(devices)
      ensures id in old(devices) ==>
                r == Success(()) && devices == old(devices)[id := old(devices)[id].(lastSeenAt := now)]
    {
      if id !in devices {
        return Failure(NotFound(id));
      }
      devices := devices[id := devices[id].(lastSeenAt := now)];
      return Success(());
    }

    method RegisterSerial(serial: string, model: string)
      requires journal.None?
      modifies this`pre
      ensures Contents() == DeviceTables.RegisterSerial(old(Contents()), serial, model)
      ensures HasDevice(Contents(), serial) && old(IsClaimed(Contents(), serial)) ==> IsClaimed(Contents(), serial)
      ensures serial !in old(pre) ==> pre == old(pre)[serial := PreRow(model, false)]
      ensures serial in old(pre) ==>
                if exists i :: i in devices && devices[i].serial == serial then pre == old(pre)
                else pre == old(pre)[serial := PreRow(old(pre)[serial].model, false)]
    {
      if serial !in pre {
        pre := pre[serial := PreRow(model, false)];
      } else if !HasDevice(Contents(), serial) {
        pre := pre[serial := pre[serial].(claimed := false)];
      }
    }

    /** Build the query, run it, and turn the lookahead row into the next cursor. */
    method ListDevices(model: Option<string>, status: Option<string>, limit: int, cursor: Option<string>)
      returns (rows: seq<Record>, next: Option<string>)
      ensures var (ids, n) := Page(devices, model, status, limit, cursor);
              next == n && RecordsOf(devices, ids, rows)
      ensures forall i :: 0 <= i < |rows| ==>
                && rows[i].id in devices && rows[i].row == devices[rows[i].id]
                && (model.Some? ==> rows[i].row.model == model.value)
                && (status.Some? ==> rows[i].row.status == status.value)
                && (cursor.Some? ==> Less(cursor.value, rows[i].id))
      ensures forall i, j :: 0 <= i < j < |rows| ==> Less(rows[i].id, rows[j].id)
      ensures limit >= 1 ==> forall id ::
                && id in devices
                && (model.Some? ==> devices[id].model == model.value)
                && (status.Some? ==> devices[id].status == status.value)
                && (cursor.Some? ==> Less(cursor.value, id)) ==>
                  (exists i :: 0 <= i < |rows| && rows[i].id == id) || (next.Some? && Less(next.value, id))
      ensures limit >= 1 ==> |rows| <= limit && (next.Some? ==> |rows| == limit && next.value == rows[limit - 1].id)
      ensures limit >= 1 && next.Some? ==> exists id ::
                && id in devices && Less(next.value, id)
                && (model.Some? ==> devices[id].model == model.value)
                && (status.Some? ==> devices[id].status == status.value)
      ensures -1 <= limit <= 0 ==> rows == [] && next.None?
    {
      var q, params := BuildQuery(model, status, cursor, limit);
      var ids := Execute(devices, q, params);
      RowsExist(devices, model, status, cursor, limit + 1);
      rows := MapRows(devices, ids);
      rows, next := PopLookahead(devices, ids, rows, limit);
      ghost var page := Page(devices, model, status, limit, cursor).0;
      PageIsAPrefix(devices, model, status, limit, cursor);
      RowsInFields(devices, page, rows, model, status, cursor);
      if limit >= 1 {
        PageInFields(devices, page, rows, model, status, limit, cursor);
      }
    }
  }
}
