/** The query list_devices builds: numbered placeholders over a parameter vector grown beside the text. */
module DeviceQuery {
  import opened Prelude
  import opened DeviceTables
  import opened Ordering

  type Devices = map<string, DeviceRow>

  datatype Column = ModelIs | StatusIs | IdAfter

  /** ` AND <column> ?<param>`; parameters are numbered from 1. */
  datatype Condition = Condition(column: Column, param: nat)

  datatype Param = Text(s: string) | Number(n: int)

  /** WHERE 1=1 and the conditions, ORDER BY id, LIMIT ?limitParam. */
  datatype Query = Query(conditions: seq<Condition>, limitParam: nat)

  datatype Record = Record(id: string, row: DeviceRow)

  // ── What the engine does with a query ───────────────────────────────────────

  /** An unbound placeholder is NULL and compares to nothing. */
  function Bound(params: seq<Param>, k: nat): Option<Param> {
    if 1 <= k <= |params| then Some(params[k - 1]) else None
  }

  predicate Matches(column: Column, text: string, id: string, row: DeviceRow) {
    match column
    case ModelIs => row.model == text
    case StatusIs => row.status == text
    case IdAfter => Less(text, id)
  }

  predicate Holds(c: Condition, params: seq<Param>, id: string, row: DeviceRow) {
    match Bound(params, c.param)
    case Some(Text(s)) => Matches(c.column, s, id, row)
    case _ => false
  }

  function Where(devices: Devices, conditions: seq<Condition>, params: seq<Param>): set<string> {
    set id | id in devices && forall i :: 0 <= i < |conditions| ==> Holds(conditions[i], params, id, devices[id])
  }

  /** A negative LIMIT is no limit. */
  function Limit(ids: seq<string>, n: int): seq<string> {
    if 0 <= n < |ids| then ids[..n] else ids
  }

  function Execute(devices: Devices, q: Query, params: seq<Param>): seq<string> {
    var ids := Sorted(Where(devices, q.conditions, params));
    match Bound(params, q.limitParam)
    case Some(Number(n)) => Limit(ids, n)
    case _ => ids
  }

  // ── What is meant ───────────────────────────────────────────────────────────

  predicate Passes(filter: Option<string>, column: Column, id: string, row: DeviceRow) {
    filter.Some? ==> Matches(column, filter.value, id, row)
  }

  /** The plain conjunction of the filters that are present. */
  function Selected(devices: Devices, model: Option<string>, status: Option<string>,
                    cursor: Option<string>): set<string> {
    set id | id in devices
      && Passes(model, ModelIs, id, devices[id])
      && Passes(status, StatusIs, id, devices[id])
      && Passes(cursor, IdAfter, id, devices[id])
  }

  // ── Building it ─────────────────────────────────────────────────────────────

  /** Every placeholder so far is bound, to a text, and no two share one. */
  predicate WellBuilt(conditions: seq<Condition>, params: seq<Param>) {
    && |conditions| == |params|
    && (forall i :: 0 <= i < |conditions| ==> conditions[i].param == i + 1)
    && (forall i :: 0 <= i < |params| ==> params[i].Text?)
  }

  /** Adding a filter, if it is there, narrows the selection by that filter and disturbs no earlier one. */
  method AddFilter(conditions: seq<Condition>, params: seq<Param>, column: Column, filter: Option<string>)
    returns (conditions': seq<Condition>, params': seq<Param>)
    requires WellBuilt(conditions, params)
    ensures WellBuilt(conditions', params')
    ensures conditions <= conditions' && params <= params'
    ensures forall devices: Devices, id :: id in devices ==>
              (id in Where(devices, conditions', params') <==>
               id in Where(devices, conditions, params) && Passes(filter, column, id, devices[id]))
    ensures forall devices: Devices, id :: id in devices && filter.Some? ==>
              (id in Where(devices, conditions', params') <==>
               && id in Where(devices, conditions, params)
               && (column.ModelIs? ==> devices[id].model == filter.value)
               && (column.StatusIs? ==> devices[id].status == filter.value)
               && (column.IdAfter? ==> Less(filter.value, id)))
  {
    conditions', params' := conditions, params;
    if filter.Some? {
      var c := Condition(column, |params| + 1);
      conditions' := conditions + [c];
      params' := params + [Text(filter.value)];
      forall devices: Devices, id | id in devices
        ensures id in Where(devices, conditions', params') <==>
                id in Where(devices, conditions, params) && Passes(filter, column, id, devices[id])
      {
        forall i | 0 <= i < |conditions|
          ensures Holds(conditions'[i], params', id, devices[id]) == Holds(conditions[i], params, id, devices[id])
        {
        }
        assert conditions'[|conditions|] == c
               && Holds(c, params', id, devices[id]) == Matches(column, filter.value, id, devices[id]);
      }
    }
  }

  /** The three filters, in the order of the text. */
  method AddFilters(model: Option<string>, status: Option<string>, cursor: Option<string>)
    returns (conditions: seq<Condition>, params: seq<Param>)
    ensures WellBuilt(conditions, params)
    ensures forall devices: Devices :: Where(devices, conditions, params) == Selected(devices, model, status, cursor)
  {
    conditions, params := [], [];
    conditions, params := AddFilter(conditions, params, ModelIs, model);
    conditions, params := AddFilter(conditions, params, StatusIs, status);
    conditions, params := AddFilter(conditions, params, IdAfter, cursor);
  }

  /**
   * The query and its parameters select, on every table, exactly the rows passing the filters that are
   * present, in id order, at most `limit + 1` of them; the limit is the last parameter.
   */
  method BuildQuery(model: Option<string>, status: Option<string>, cursor: Option<string>, limit: int)
    returns (q: Query, params: seq<Param>)
    ensures forall devices: Devices :: Execute(devices, q, params) ==
                Limit(Sorted(Selected(devices, model, status, cursor)), limit + 1)
    ensures q.limitParam == |params| == |q.conditions| + 1 && params[|params| - 1] == Number(limit + 1)
    ensures forall devices: Devices, id :: id in devices ==>
              (id in Where(devices, q.conditions, params) <==>
               && (model.Some? ==> devices[id].model == model.value)
               && (status.Some? ==> devices[id].status == status.value)
               && (cursor.Some? ==> Less(cursor.value, id)))
  {
    var conditions, texts := AddFilters(model, status, cursor);
    params := texts + [Number(limit + 1)];
    q := Query(conditions, |params|);
    forall devices: Devices ensures Where(devices, conditions, params) == Selected(devices, model, status, cursor) {
      LimitParamIsIdle(devices, conditions, texts, Number(limit + 1));
    }
    forall devices: Devices, id | id in devices
      ensures id in Where(devices, conditions, params) <==>
                && (model.Some? ==> devices[id].model == model.value)
                && (status.Some? ==> devices[id].status == status.value)
                && (cursor.Some? ==> Less(cursor.value, id))
    {
      SelectedInFields(devices, id, model, status, cursor);
    }
  }

  lemma SelectedInFields(devices: Devices, id: string, model: Option<string>, status: Option<string>,
                         cursor: Option<string>)
    requires id in devices
    ensures id in Selected(devices, model, status, cursor) <==>
              && (model.Some? ==> devices[id].model == model.value)
              && (status.Some? ==> devices[id].status == status.value)
              && (cursor.Some? ==> Less(cursor.value, id))
  {
  }

  lemma LimitParamIsIdle(devices: Devices, conditions: seq<Condition>, params: seq<Param>, last: Param)
    requires WellBuilt(conditions, params)
    ensures Where(devices, conditions, params + [last]) == Where(devices, conditions, params)
  {
    forall id, i | id in devices && 0 <= i < |conditions|
      ensures Holds(conditions[i], params + [last], id, devices[id]) == Holds(conditions[i], params, id, devices[id])
    {
    }
  }

  // ── One page ────────────────────────────────────────────────────────────────

  /** One row is fetched beyond the page; if it is there it is dropped and the last kept id is the cursor. */
  function CutPage(all: seq<string>, limit: int): (seq<string>, Option<string>) {
    KeepPage(Limit(all, limit + 1), limit)
  }

  function KeepPage(ids: seq<string>, limit: int): (seq<string>, Option<string>) {
    if |ids| > limit then
      var kept := if ids == [] then [] else ids[..|ids| - 1];
      (kept, if kept == [] then None else Some(kept[|kept| - 1]))
    else (ids, None)
  }

  /** The ids of one page and the cursor of the next. */
  function Page(devices: Devices, model: Option<string>, status: Option<string>, limit: int, cursor: Option<string>)
    : (seq<string>, Option<string>)
  {
    CutPage(Sorted(Selected(devices, model, status, cursor)), limit)
  }

  lemma RowsExist(devices: Devices, model: Option<string>, status: Option<string>, cursor: Option<string>, n: int)
    ensures forall id :: id in Limit(Sorted(Selected(devices, model, status, cursor)), n) ==> id in devices
  {
    var all := Sorted(Selected(devices, model, status, cursor));
    assert forall id :: id in all ==> id in devices;
  }
}
