/** Walking list_devices with its cursor, page after page, on a still table and on one that changes meanwhile. */
module DeviceWalk {
  import opened Prelude
  import opened Ordering
  import opened DeviceQuery

  // ── A still table ───────────────────────────────────────────────────────────

  /** `page` and `next` are the first `limit` of `all` and the cursor after them, or all of it and no cursor. */
  predicate Splits(all: seq<string>, limit: int, page: seq<string>, next: Option<string>)
    requires limit >= 1
  {
    if |all| <= limit then page == all && next.None?
    else page == all[..limit] && next == Some(all[limit - 1])
  }

  lemma CutPageSplits(all: seq<string>, limit: int)
    requires limit >= 1
    ensures Splits(all, limit, CutPage(all, limit).0, CutPage(all, limit).1)
  {
    if |all| > limit {
      assert Limit(all, limit + 1)[..limit] == all[..limit];
    }
  }

  /** What a page leaves is what its cursor selects. */
  lemma NextPageIsTheTail(devices: Devices, model: Option<string>, status: Option<string>, limit: int,
                          cursor: Option<string>)
    requires limit >= 1
    ensures var (ids, next) := Page(devices, model, status, limit, cursor);
            var all := Sorted(Selected(devices, model, status, cursor));
            && Splits(all, limit, ids, next)
            && (next.Some? ==> Sorted(Selected(devices, model, status, next)) == all[limit..])
  {
    var selected := Selected(devices, model, status, cursor);
    CutPageSplits(Sorted(selected), limit);
    TailSelected(devices, model, status, limit, cursor);
  }

  /** Whatever the limit, a page is the beginning of the sorted matches. */
  lemma PageIsAPrefix(devices: Devices, model: Option<string>, status: Option<string>, limit: int,
                      cursor: Option<string>)
    ensures var ids := Page(devices, model, status, limit, cursor).0;
            && ids <= Sorted(Selected(devices, model, status, cursor)) && Increasing(ids)
            && (forall id :: id in ids ==> id in Selected(devices, model, status, cursor))
  {
    var ids := Page(devices, model, status, limit, cursor).0;
    var all := Sorted(Selected(devices, model, status, cursor));
    forall i | 0 <= i < |ids| ensures ids[i] in all {
      assert ids[i] == all[i];
    }
  }

  /** A page in the terms of its rows: what is on it, in which order, and what is not. */
  lemma PageContents(devices: Devices, model: Option<string>, status: Option<string>, limit: int,
                     cursor: Option<string>)
    requires limit >= 1
    ensures var (ids, next) := Page(devices, model, status, limit, cursor);
            var selected := Selected(devices, model, status, cursor);
            && Increasing(ids) && |ids| <= limit
            && (forall id :: id in ids ==> id in selected)
            && (forall id :: id in selected ==> id in ids || (next.Some? && Less(next.value, id)))
            && (next.Some? ==> |ids| == limit && next.value == ids[limit - 1])
            && (next.Some? ==> exists id :: id in selected && Less(next.value, id))
  {
    NextPageIsTheTail(devices, model, status, limit, cursor);
    var all := Sorted(Selected(devices, model, status, cursor));
    var (ids, next) := Page(devices, model, status, limit, cursor);
    PageIsAPrefix(devices, model, status, limit, cursor);
    if next.Some? {
      assert all[limit] in all && Less(all[limit - 1], all[limit]);
    }
    forall id | id in all ensures id in ids || (next.Some? && Less(next.value, id)) {
      OnPageOrAfter(all, limit, ids, next, id);
    }
  }

  lemma TailSelected(devices: Devices, model: Option<string>, status: Option<string>, limit: int,
                     cursor: Option<string>)
    requires limit >= 1
    ensures var all := Sorted(Selected(devices, model, status, cursor));
            |all| > limit ==> Sorted(Selected(devices, model, status, Some(all[limit - 1]))) == all[limit..]
  {
    var selected := Selected(devices, model, status, cursor);
    if |Sorted(selected)| > limit {
      var m := Sorted(selected)[limit - 1];
      assert m in Sorted(selected);
      SortedTail(selected, limit - 1);
      AboveCursor(devices, model, status, cursor, m);
    }
  }

  /** Moving the cursor up to a listed id leaves exactly the matches above it. */
  lemma AboveCursor(devices: Devices, model: Option<string>, status: Option<string>, cursor: Option<string>, m: string)
    requires m in Selected(devices, model, status, cursor)
    ensures Selected(devices, model, status, Some(m)) == Above(Selected(devices, model, status, cursor), m)
  {
    forall id | id in devices && Less(m, id) ensures Passes(cursor, IdAfter, id, devices[id]) {
      if cursor.Some? {
        LessTransitive(cursor.value, m, id);
      }
    }
  }

  /** All pages of a walk; what remains above the cursor shrinks with every page. */
  function Walk(devices: Devices, model: Option<string>, status: Option<string>, limit: int,
                cursor: Option<string>): seq<seq<string>>
    requires limit >= 1
    decreases |Sorted(Selected(devices, model, status, cursor))|
  {
    NextPageIsTheTail(devices, model, status, limit, cursor);
    var (ids, next) := Page(devices, model, status, limit, cursor);
    if next.None? then [ids] else [ids] + Walk(devices, model, status, limit, next)
  }

  function Concat(pages: seq<seq<string>>): seq<string> {
    if pages == [] then [] else pages[0] + Concat(pages[1..])
  }

  /** `pages` is max(1, ceil(n / limit)): enough pages, and no fewer than one would do. */
  predicate FewestPages(pages: nat, n: nat, limit: int) {
    pages >= 1 && n <= pages * limit && (pages == 1 || (pages - 1) * limit < n)
  }

  lemma OneMorePage(pages: nat, n: nat, limit: int)
    requires 1 <= limit < n && FewestPages(pages, n - limit, limit)
    ensures FewestPages(pages + 1, n, limit)
  {
    assert (pages + 1) * limit == pages * limit + limit;
    assert pages > 1 ==> pages * limit == (pages - 1) * limit + limit;
  }

  /** On a still table the pages are the sorted matches, cut into as few pages as can be. */
  lemma {:induction false} WalkListsEverything(devices: Devices, model: Option<string>, status: Option<string>,
                                               limit: int, cursor: Option<string>)
    requires limit >= 1
    ensures var pages := Walk(devices, model, status, limit, cursor);
            var all := Sorted(Selected(devices, model, status, cursor));
            && Concat(pages) == all && |all| == |Selected(devices, model, status, cursor)|
            && FewestPages(|pages|, |all|, limit)
    decreases |Sorted(Selected(devices, model, status, cursor))|
  {
    NextPageIsTheTail(devices, model, status, limit, cursor);
    SortedSize(Selected(devices, model, status, cursor));
    var all := Sorted(Selected(devices, model, status, cursor));
    var (ids, next) := Page(devices, model, status, limit, cursor);
    if next.Some? {
      WalkListsEverything(devices, model, status, limit, next);
      var rest := Walk(devices, model, status, limit, next);
      AddPage(all, ids, rest, limit);
      assert Walk(devices, model, status, limit, cursor) == [ids] + rest;
    } else {
      ConcatCons(all, []);
      assert Walk(devices, model, status, limit, cursor) == [ids];
    }
  }

  lemma AddPage(all: seq<string>, page: seq<string>, rest: seq<seq<string>>, limit: int)
    requires 1 <= limit < |all| && page == all[..limit]
    requires Concat(rest) == all[limit..] && FewestPages(|rest|, |all[limit..]|, limit)
    ensures Concat([page] + rest) == all && FewestPages(|[page] + rest|, |all|, limit)
  {
    OneMorePage(|rest|, |all|, limit);
    ConcatCons(page, rest);
    assert all == all[..limit] + all[limit..];
  }

  lemma ConcatCons(page: seq<string>, pages: seq<seq<string>>)
    ensures Concat([page] + pages) == page + Concat(pages)
    ensures pages == [] ==> Concat([page]) == page
  {
    assert ([page] + pages)[1..] == pages;
    assert [page] + [] == [page];
  }

  // ── A table that changes between pages ──────────────────────────────────────

  /** A walk over successive states of the table: the ids returned, and whether the last page had no cursor. */
  function WalkOver(states: seq<Devices>, model: Option<string>, status: Option<string>, limit: int,
                    cursor: Option<string>)
    : (seq<string>, bool)
    requires limit >= 1
    decreases |states|
  {
    if states == [] then ([], false)
    else
      var (ids, next) := Page(states[0], model, status, limit, cursor);
      if next.None? then (ids, true)
      else
        var (rest, done) := WalkOver(states[1..], model, status, limit, next);
        (ids + rest, done)
  }

  /** The device is there and matches in every state of the walk. */
  predicate ThroughoutMatching(states: seq<Devices>, model: Option<string>, status: Option<string>, id: string) {
    forall i :: 0 <= i < |states| ==>
      id in states[i] && Passes(model, ModelIs, id, states[i][id]) && Passes(status, StatusIs, id, states[i][id])
  }

  lemma {:induction false} WalkOverIncreases(states: seq<Devices>, model: Option<string>, status: Option<string>,
                                             limit: int, cursor: Option<string>)
    requires limit >= 1
    ensures Increasing(WalkOver(states, model, status, limit, cursor).0)
    ensures AllAbove(WalkOver(states, model, status, limit, cursor).0, cursor)
    decreases |states|
  {
    if states != [] {
      NextPageIsTheTail(states[0], model, status, limit, cursor);
      var (ids, next) := Page(states[0], model, status, limit, cursor);
      PageIsAbove(states[0], model, status, limit, cursor);
      if next.Some? {
        WalkOverIncreases(states[1..], model, status, limit, next);
        var rest := WalkOver(states[1..], model, status, limit, next).0;
        assert next.value == ids[|ids| - 1];
        GluedIncreasing(ids, rest);
        if cursor.Some? {
          forall i | 0 <= i < |rest| ensures Less(cursor.value, rest[i]) {
            LessTransitive(cursor.value, next.value, rest[i]);
          }
        }
      }
    }
  }

  predicate AllAbove(ids: seq<string>, cursor: Option<string>) {
    cursor.Some? ==> forall i :: 0 <= i < |ids| ==> Less(cursor.value, ids[i])
  }

  lemma PageIsAbove(devices: Devices, model: Option<string>, status: Option<string>, limit: int, cursor: Option<string>)
    requires limit >= 1
    ensures var ids := Page(devices, model, status, limit, cursor).0; Increasing(ids) && AllAbove(ids, cursor)
  {
    NextPageIsTheTail(devices, model, status, limit, cursor);
    var all := Sorted(Selected(devices, model, status, cursor));
    forall i | 0 <= i < |all| ensures cursor.Some? ==> Less(cursor.value, all[i]) {
      assert all[i] in all;
    }
  }

  lemma GluedIncreasing(ids: seq<string>, rest: seq<string>)
    requires ids != [] && Increasing(ids) && Increasing(rest)
    requires forall i :: 0 <= i < |rest| ==> Less(ids[|ids| - 1], rest[i])
    ensures Increasing(ids + rest)
  {
    forall i, j | 0 <= i < |ids| && 0 <= j < |rest| ensures Less(ids[i], rest[j]) {
      if i < |ids| - 1 {
        LessTransitive(ids[i], ids[|ids| - 1], rest[j]);
      }
    }
  }

  lemma {:induction false} WalkOverMissesNone(states: seq<Devices>, model: Option<string>, status: Option<string>,
                                              limit: int, cursor: Option<string>, id: string)
    requires limit >= 1
    requires WalkOver(states, model, status, limit, cursor).1
    requires ThroughoutMatching(states, model, status, id)
    requires cursor.Some? ==> Less(cursor.value, id)
    ensures id in WalkOver(states, model, status, limit, cursor).0
    decreases |states|
  {
    NextPageIsTheTail(states[0], model, status, limit, cursor);
    var (ids, next) := Page(states[0], model, status, limit, cursor);
    var all := Sorted(Selected(states[0], model, status, cursor));
    assert id in Selected(states[0], model, status, cursor);
    OnPageOrAfter(all, limit, ids, next, id);
    if id !in ids {
      WalkOverMissesNone(states[1..], model, status, limit, next, id);
    }
  }

  lemma OnPageOrAfter(all: seq<string>, limit: int, page: seq<string>, next: Option<string>, id: string)
    requires limit >= 1 && Splits(all, limit, page, next) && Increasing(all) && id in all
    ensures id in page || (next.Some? && Less(next.value, id))
  {
    var k :| 0 <= k < |all| && all[k] == id;
    if k >= limit {
      PositionOfGreater(all, limit - 1, k);
    } else {
      assert page[k] == id;
    }
  }

  /**
   * However the table changes between pages: the ids returned strictly increase, so none repeats, and a
   * walk that reaches its end has returned every device that was there and matched throughout.
   */
  lemma ChangingTableWalk(states: seq<Devices>, model: Option<string>, status: Option<string>, limit: int)
    requires limit >= 1
    ensures var (ids, done) := WalkOver(states, model, status, limit, None);
            && Increasing(ids)
            && (forall i, j :: 0 <= i < j < |ids| ==> ids[i] != ids[j])
            && (done ==> forall id :: ThroughoutMatching(states, model, status, id) ==> id in ids)
  {
    WalkOverIncreases(states, model, status, limit, None);
    var (ids, done) := WalkOver(states, model, status, limit, None);
    forall i, j | 0 <= i < j < |ids| ensures ids[i] != ids[j] {
      LessTotal(ids[i], ids[j]);
    }
    if done {
      forall id | ThroughoutMatching(states, model, status, id) ensures id in ids {
        WalkOverMissesNone(states, model, status, limit, None, id);
      }
    }
  }
}
