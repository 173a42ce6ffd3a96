/** The list_devices handler: empty strings are absent filters, and the whole walk a client makes with it. */
module DeviceServer {
  import opened Prelude
  import opened Ordering
  import opened DeviceQuery
  import opened DeviceWalk
  import opened DeviceStore

  function OrDefault(limit: int): (n: int)
    ensures n >= 1
  {
    if limit > 0 then limit else 50
  }

  function OrNone(s: string): Option<string> {
    if s == "" then None else Some(s)
  }

  function OrEmpty(o: Option<string>): string {
    if o.None? then "" else o.value
  }

  /** The ids and the cursor of the answer to one request. */
  function Answer(devices: Devices, model: string, status: string, limit: int, cursor: string): (seq<string>, string) {
    var (ids, next) := Page(devices, OrNone(model), OrNone(status), OrDefault(limit), OrNone(cursor));
    (ids, OrEmpty(next))
  }

  class DeviceManagementServer {
    const store: SqliteDeviceStore

    constructor (store: SqliteDeviceStore)
      ensures this.store == store
    {
      this.store := store;
    }

    method ListDevices(model: string, status: string, limit: int, cursor: string)
      returns (rows: seq<Record>, next: string)
      ensures var (ids, n) := Answer(store.devices, model, status, limit, cursor);
              next == n && RecordsOf(store.devices, ids, rows)
      ensures forall i :: 0 <= i < |rows| ==>
                && rows[i].id in store.devices && rows[i].row == store.devices[rows[i].id]
                && (model != "" ==> rows[i].row.model == model)
                && (status != "" ==> rows[i].row.status == status)
                && (cursor != "" ==> Less(cursor, rows[i].id))
      ensures forall i, j :: 0 <= i < j < |rows| ==> Less(rows[i].id, rows[j].id)
      ensures "" !in store.devices ==> forall id ::
                && id in store.devices
                && (model != "" ==> store.devices[id].model == model)
                && (status != "" ==> store.devices[id].status == status)
                && (cursor != "" ==> Less(cursor, id)) ==>
                  (exists i :: 0 <= i < |rows| && rows[i].id == id) || (next != "" && Less(next, id))
      ensures var size := if limit > 0 then limit else 50;
              |rows| <= size && (next != "" ==> |rows| == size && next == rows[size - 1].id)
      ensures next != "" ==> exists id ::
                && id in store.devices && Less(next, id)
                && (model != "" ==> store.devices[id].model == model)
                && (status != "" ==> store.devices[id].status == status)
    {
      var page, n := store.ListDevices(OrNone(model), OrNone(status), OrDefault(limit), OrNone(cursor));
      if "" !in store.devices {
        CursorIsAnId(store.devices, OrNone(model), OrNone(status), OrDefault(limit), OrNone(cursor));
      }
      return page, OrEmpty(n);
    }
  }

  /** A client asks again with each cursor it gets, until it gets the empty one. */
  function Requests(devices: Devices, model: string, status: string, limit: int, cursor: string): seq<seq<string>>
    decreases |Sorted(Selected(devices, OrNone(model), OrNone(status), OrNone(cursor)))|
  {
    NextPageIsTheTail(devices, OrNone(model), OrNone(status), OrDefault(limit), OrNone(cursor));
    var (ids, next) := Answer(devices, model, status, limit, cursor);
    if next == "" then [ids] else [ids] + Requests(devices, model, status, limit, next)
  }

  /** No cursor is empty: it is the id of a listed device, and no id is. */
  lemma CursorIsAnId(devices: Devices, model: Option<string>, status: Option<string>, limit: int,
                     cursor: Option<string>)
    requires limit >= 1 && "" !in devices
    ensures Page(devices, model, status, limit, cursor).1 != Some("")
  {
    NextPageIsTheTail(devices, model, status, limit, cursor);
    var all := Sorted(Selected(devices, model, status, cursor));
    var (ids, next) := Page(devices, model, status, limit, cursor);
    if next.Some? {
      assert all[limit - 1] in all;
    }
  }

  lemma {:induction false} RequestsAreAWalk(devices: Devices, model: string, status: string, limit: int, cursor: string)
    requires "" !in devices
    ensures Requests(devices, model, status, limit, cursor) ==
              Walk(devices, OrNone(model), OrNone(status), OrDefault(limit), OrNone(cursor))
    decreases |Sorted(Selected(devices, OrNone(model), OrNone(status), OrNone(cursor)))|
  {
    NextPageIsTheTail(devices, OrNone(model), OrNone(status), OrDefault(limit), OrNone(cursor));
    CursorIsAnId(devices, OrNone(model), OrNone(status), OrDefault(limit), OrNone(cursor));
    var next := Answer(devices, model, status, limit, cursor).1;
    if next != "" {
      RequestsAreAWalk(devices, model, status, limit, next);
    }
  }

  /**
   * On a still table whose ids are not empty (they are UUIDs), the answers to a client that starts without a
   * cursor are together the sorted matches, for n of them in exactly max(1, ceil(n / page size)) requests;
   * the page size is the requested limit if it is positive and 50 otherwise.
   */
  lemma RequestsListEverything(devices: Devices, model: string, status: string, limit: int)
    requires "" !in devices
    ensures var pages := Requests(devices, model, status, limit, "");
            var matches := Selected(devices, OrNone(model), OrNone(status), None);
            Concat(pages) == Sorted(matches) && FewestPages(|pages|, |matches|, OrDefault(limit))
  {
    RequestsAreAWalk(devices, model, status, limit, "");
    WalkListsEverything(devices, OrNone(model), OrNone(status), OrDefault(limit), None);
  }

  /** The same client on a table that changes between requests: the ids it gets, and whether it reached the end. */
  function RequestsOver(states: seq<Devices>, model: string, status: string, limit: int, cursor: string)
    : (seq<string>, bool)
    decreases |states|
  {
    if states == [] then ([], false)
    else
      var (ids, next) := Answer(states[0], model, status, limit, cursor);
      if next == "" then (ids, true)
      else
        var (rest, done) := RequestsOver(states[1..], model, status, limit, next);
        (ids + rest, done)
  }

  lemma {:induction false} RequestsOverAreAWalk(states: seq<Devices>, model: string, status: string, limit: int,
                                                cursor: string)
    requires forall devices :: devices in states ==> "" !in devices
    ensures RequestsOver(states, model, status, limit, cursor) ==
              WalkOver(states, OrNone(model), OrNone(status), OrDefault(limit), OrNone(cursor))
    decreases |states|
  {
    if states != [] {
      CursorIsAnId(states[0], OrNone(model), OrNone(status), OrDefault(limit), OrNone(cursor));
      var next := Answer(states[0], model, status, limit, cursor).1;
      if next != "" {
        RequestsOverAreAWalk(states[1..], model, status, limit, next);
      }
    }
  }

  /** Whatever changes in between: no id repeats, they increase, and who matched throughout is in a finished walk. */
  lemma RequestsMissNone(states: seq<Devices>, model: string, status: string, limit: int)
    requires forall devices :: devices in states ==> "" !in devices
    ensures var (ids, done) := RequestsOver(states, model, status, limit, "");
            && Increasing(ids)
            && (forall i, j :: 0 <= i < j < |ids| ==> ids[i] != ids[j])
            && (done ==> forall id :: ThroughoutMatching(states, OrNone(model), OrNone(status), id) ==> id in ids)
  {
    RequestsOverAreAWalk(states, model, status, limit, "");
    ChangingTableWalk(states, OrNone(model), OrNone(status), OrDefault(limit));
  }
}
