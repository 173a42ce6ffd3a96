/**
 * Paging through a device's jobs by a one-second timestamp. Equal timestamps come in any order, and the
 * cursor is strict, so everything here is stated for every order of ties.
 */
module JobWalk {
  import opened Prelude
  import opened JobTable

  function Matching(t: Jobs, device: string, cursor: Option<int>): set<string> {
    set id | id in t && t[id].device == device && (cursor.Some? ==> t[id].createdAt < cursor.value)
  }

  ghost predicate Distinct(rows: seq<string>) {
    forall i, j :: 0 <= i < j < |rows| ==> rows[i] != rows[j]
  }

  ghost predicate Newest(t: Jobs, rows: seq<string>)
    requires forall id :: id in rows ==> id in t
  {
    forall i, j :: 0 <= i < j < |rows| ==> t[rows[i]].createdAt >= t[rows[j]].createdAt
  }

  /** `rows` can come back from ORDER BY created_at DESC LIMIT fetch over `ids`. */
  ghost predicate Fetched(t: Jobs, ids: set<string>, fetch: nat, rows: seq<string>) {
    && ids <= t.Keys
    && (forall id :: id in rows ==> id in ids)
    && Distinct(rows) && Newest(t, rows)
    && |rows| <= fetch && (|rows| < fetch ==> forall id :: id in ids ==> id in rows)
    && (forall id, i :: id in ids && id !in rows && 0 <= i < |rows| ==> t[id].createdAt <= t[rows[i]].createdAt)
  }

  /** One answer of list_for_device: fetch one more than the page to learn whether there is a next one. */
  ghost predicate IsPage(t: Jobs, device: string, limit: nat, cursor: Option<int>, rows: seq<string>,
                         next: Option<int>) {
    exists fetched :: Fetched(t, Matching(t, device, cursor), limit + 1, fetched)
        && FromFetched(t, limit, fetched, rows, next)
  }

  ghost predicate FromFetched(t: Jobs, limit: nat, fetched: seq<string>, rows: seq<string>, next: Option<int>) {
    if |fetched| > limit then
      limit >= 1 && rows == fetched[..limit] && fetched[limit - 1] in t && next == Some(t[fetched[limit - 1]].createdAt)
    else rows == fetched && next.None?
  }

  // ── What one page leaves ────────────────────────────────────────────────────

  /** A page cut from a longer answer: its rows in order, and nothing newer than its last row is off it. */
  lemma FullPageFacts(t: Jobs, ids: set<string>, limit: nat, fetched: seq<string>)
    requires 1 <= limit < |fetched| && Fetched(t, ids, limit + 1, fetched)
    ensures var rows := fetched[..limit]; var last := t[fetched[limit - 1]].createdAt;
            && (forall id :: id in rows ==> id in ids && t[id].createdAt >= last)
            && Distinct(rows) && Newest(t, rows)
  {
    forall id | id in fetched[..limit] ensures id in ids && t[id].createdAt >= t[fetched[limit - 1]].createdAt {
      var i :| 0 <= i < limit && fetched[i] == id;
      assert fetched[i] in fetched;
    }
  }

  lemma NewerAreOnThePage(t: Jobs, ids: set<string>, limit: nat, fetched: seq<string>, id: string)
    requires 1 <= limit < |fetched| && Fetched(t, ids, limit + 1, fetched)
    requires id in ids && t[id].createdAt > t[fetched[limit - 1]].createdAt
    ensures id in fetched[..limit]
  {
    if id in fetched {
      var i :| 0 <= i < |fetched| && fetched[i] == id;
      assert i < limit;
      assert fetched[..limit][i] == id;
    }
  }

  /** The rows are matches in order; those above the cursor of the next page are all in them. */
  lemma PageFacts(t: Jobs, device: string, limit: nat, cursor: Option<int>, rows: seq<string>, next: Option<int>)
    requires limit >= 1 && IsPage(t, device, limit, cursor, rows, next)
    ensures forall id :: id in rows ==> id in Matching(t, device, cursor)
    ensures Distinct(rows) && Newest(t, rows)
    ensures next.None? ==> forall id :: id in Matching(t, device, cursor) ==> id in rows
    ensures next.Some? ==>
              && |rows| == limit && t[rows[limit - 1]].createdAt == next.value
              && (forall id :: id in rows ==> t[id].createdAt >= next.value)
              && (forall id :: id in Matching(t, device, cursor) && t[id].createdAt > next.value ==> id in rows)
              && (cursor.Some? ==> next.value < cursor.value)
  {
    var ids := Matching(t, device, cursor);
    var fetched :| Fetched(t, ids, limit + 1, fetched) && FromFetched(t, limit, fetched, rows, next);
    if next.Some? {
      FullPageFacts(t, ids, limit, fetched);
      forall id | id in ids && t[id].createdAt > next.value ensures id in rows {
        NewerAreOnThePage(t, ids, limit, fetched, id);
      }
      assert rows[limit - 1] in rows;
    }
  }

  // ── A walk ──────────────────────────────────────────────────────────────────

  /** `pages` can come back from following the cursor until there is none, on a table that stays as it is. */
  ghost predicate IsWalk(t: Jobs, device: string, limit: nat, cursor: Option<int>, pages: seq<seq<string>>)
    decreases |pages|
  {
    && pages != []
    && exists next :: IsPage(t, device, limit, cursor, pages[0], next) &&
         (if next.None? then |pages| == 1 else IsWalk(t, device, limit, next, pages[1..]))
  }

  function Listed(pages: seq<seq<string>>): seq<string> {
    if pages == [] then [] else pages[0] + Listed(pages[1..])
  }

  /** Each further page has fewer candidates: at least the whole page before it is gone. */
  lemma CandidatesShrink(t: Jobs, device: string, limit: nat, cursor: Option<int>, rows: seq<string>, next: Option<int>)
    requires limit >= 1 && IsPage(t, device, limit, cursor, rows, next) && next.Some?
    ensures Matching(t, device, next) < Matching(t, device, cursor)
  {
    PageFacts(t, device, limit, cursor, rows, next);
    assert rows[limit - 1] in rows && rows[limit - 1] !in Matching(t, device, next);
  }

  /** `pages` are the first answers of a walk, which may have ended or may still go on. */
  ghost predicate IsStarted(t: Jobs, device: string, limit: nat, cursor: Option<int>, pages: seq<seq<string>>)
    decreases |pages|
  {
    pages == [] || exists next ::
      && IsPage(t, device, limit, cursor, pages[0], next)
      && (if next.None? then |pages| == 1 else IsStarted(t, device, limit, next, pages[1..]))
  }

  lemma {:induction false} WalkIsStarted(t: Jobs, device: string, limit: nat, cursor: Option<int>,
                                         pages: seq<seq<string>>)
    requires IsWalk(t, device, limit, cursor, pages)
    ensures IsStarted(t, device, limit, cursor, pages)
    decreases |pages|
  {
    var next :| IsPage(t, device, limit, cursor, pages[0], next) &&
      (if next.None? then |pages| == 1 else IsWalk(t, device, limit, next, pages[1..]));
    if next.Some? {
      WalkIsStarted(t, device, limit, next, pages[1..]);
    }
  }

  /** Following the cursors ends: no more answers than candidates and one, whatever each answer was. */
  lemma {:induction false} WalkIsBounded(t: Jobs, device: string, limit: nat, cursor: Option<int>,
                                         pages: seq<seq<string>>)
    requires limit >= 1 && IsStarted(t, device, limit, cursor, pages)
    ensures |pages| <= |Matching(t, device, cursor)| + 1
    decreases |pages|
  {
    if pages != [] {
      var next :| IsPage(t, device, limit, cursor, pages[0], next) &&
        (if next.None? then |pages| == 1 else IsStarted(t, device, limit, next, pages[1..]));
      if next.Some? {
        FewerCandidates(t, device, limit, cursor, pages[0], next);
        WalkIsBounded(t, device, limit, next, pages[1..]);
      }
    }
  }

  /** There is always an answer. */
  lemma {:induction false} SomeFetch(t: Jobs, ids: set<string>, n: nat)
    requires ids <= t.Keys
    ensures exists rows :: Fetched(t, ids, n, rows)
    decreases n
  {
    if n > 0 && ids != {} {
      var id := SomeNewest(t, ids);
      SomeFetch(t, ids - {id}, n - 1);
      var rest :| Fetched(t, ids - {id}, n - 1, rest);
      NewestFirst(t, ids, n, id, rest);
    } else {
      assert Fetched(t, ids, n, []);
    }
  }

  lemma NewestFirst(t: Jobs, ids: set<string>, n: nat, id: string, rest: seq<string>)
    requires n > 0 && ids <= t.Keys && Fetched(t, ids - {id}, n - 1, rest)
    requires id in ids && forall x :: x in ids ==> t[x].createdAt <= t[id].createdAt
    ensures Fetched(t, ids, n, [id] + rest)
  {
    var rows := [id] + rest;
    forall i, j | 0 <= i < j < |rows| ensures rows[i] != rows[j] && t[rows[i]].createdAt >= t[rows[j]].createdAt {
      assert rows[j] in rest;
    }
    forall x, i | x in ids && x !in rows && 0 <= i < |rows| ensures t[x].createdAt <= t[rows[i]].createdAt {
      assert i > 0 ==> rows[i] == rest[i - 1];
    }
  }

  lemma {:induction false} SomeNewest(t: Jobs, ids: set<string>) returns (id: string)
    requires ids != {} && ids <= t.Keys
    ensures id in ids && forall x :: x in ids ==> t[x].createdAt <= t[id].createdAt
    decreases |ids|
  {
    var x :| x in ids;
    id := x;
    if ids != {x} {
      assert ids - {x} != {};
      var y := SomeNewest(t, ids - {x});
      id := if t[y].createdAt > t[x].createdAt then y else x;
    }
  }

  lemma SomePage(t: Jobs, device: string, limit: nat, cursor: Option<int>)
    returns (rows: seq<string>, next: Option<int>)
    requires limit >= 1
    ensures IsPage(t, device, limit, cursor, rows, next)
  {
    SomeFetch(t, Matching(t, device, cursor), limit + 1);
    var fetched :| Fetched(t, Matching(t, device, cursor), limit + 1, fetched);
    if |fetched| > limit {
      assert fetched[limit - 1] in fetched;
      rows, next := fetched[..limit], Some(t[fetched[limit - 1]].createdAt);
    } else {
      rows, next := fetched, None;
    }
    assert FromFetched(t, limit, fetched, rows, next);
  }

  lemma OneMorePage(t: Jobs, device: string, limit: nat, cursor: Option<int>, rows: seq<string>, next: Option<int>,
                    later: seq<seq<string>>)
    requires IsPage(t, device, limit, cursor, rows, next)
    requires if next.None? then later == [] else IsWalk(t, device, limit, next, later)
    ensures IsWalk(t, device, limit, cursor, [rows] + later)
  {
    var pages := [rows] + later;
    assert pages[0] == rows && pages[1..] == later;
  }

  lemma FewerCandidates(t: Jobs, device: string, limit: nat, cursor: Option<int>, rows: seq<string>, next: Option<int>)
    requires limit >= 1 && IsPage(t, device, limit, cursor, rows, next) && next.Some?
    ensures |Matching(t, device, next)| < |Matching(t, device, cursor)|
  {
    CandidatesShrink(t, device, limit, cursor, rows, next);
    SubsetSmaller(Matching(t, device, next), Matching(t, device, cursor));
  }

  /** A walk exists from every cursor. */
  lemma {:induction false} WalkExists(t: Jobs, device: string, limit: nat, cursor: Option<int>)
    returns (pages: seq<seq<string>>)
    requires limit >= 1
    ensures IsWalk(t, device, limit, cursor, pages)
    decreases |Matching(t, device, cursor)|
  {
    var rows, next := SomePage(t, device, limit, cursor);
    var later: seq<seq<string>> := [];
    if next.Some? {
      FewerCandidates(t, device, limit, cursor, rows, next);
      later := WalkExists(t, device, limit, next);
    }
    OneMorePage(t, device, limit, cursor, rows, next, later);
    pages := [rows] + later;
  }

  /** From wherever a client has got to, with whatever order of ties so far, its walk can be finished. */
  lemma {:induction false} WalkCanBeFinished(t: Jobs, device: string, limit: nat, cursor: Option<int>,
                                             pages: seq<seq<string>>)
    returns (rest: seq<seq<string>>)
    requires limit >= 1 && IsStarted(t, device, limit, cursor, pages)
    ensures IsWalk(t, device, limit, cursor, pages + rest)
    decreases |pages|
  {
    if pages == [] {
      rest := WalkExists(t, device, limit, cursor);
      assert pages + rest == rest;
    } else {
      var next :| IsPage(t, device, limit, cursor, pages[0], next) &&
        (if next.None? then |pages| == 1 else IsStarted(t, device, limit, next, pages[1..]));
      if next.Some? {
        rest := WalkCanBeFinished(t, device, limit, next, pages[1..]);
        PageBefore(t, device, limit, cursor, pages, next, rest);
      } else {
        rest := [];
        PageBefore(t, device, limit, cursor, pages, next, rest);
      }
    }
  }

  lemma HeadTail(pages: seq<seq<string>>, rest: seq<seq<string>>)
    requires pages != []
    ensures [pages[0]] + (pages[1..] + rest) == pages + rest
  {
  }

  lemma PageBefore(t: Jobs, device: string, limit: nat, cursor: Option<int>, pages: seq<seq<string>>, next: Option<int>,
                   rest: seq<seq<string>>)
    requires pages != [] && IsPage(t, device, limit, cursor, pages[0], next)
    requires if next.None? then pages[1..] + rest == [] else IsWalk(t, device, limit, next, pages[1..] + rest)
    ensures IsWalk(t, device, limit, cursor, pages + rest)
  {
    OneMorePage(t, device, limit, cursor, pages[0], next, pages[1..] + rest);
    HeadTail(pages, rest);
  }

  lemma SubsetSmaller(xs: set<string>, ys: set<string>)
    requires xs < ys
    ensures |xs| < |ys|
  {
    assert ys == xs + (ys - xs);
    assert ys - xs != {};
  }

  /** The job is tied with the last row of page `k`, which is followed by another page, and is not on it. */
  ghost predicate CutOffAt(t: Jobs, pages: seq<seq<string>>, id: string, k: int)
    requires id in t
  {
    && 0 <= k < |pages| - 1 && pages[k] != [] && pages[k][|pages[k]| - 1] in t
    && t[id].createdAt == t[pages[k][|pages[k]| - 1]].createdAt && id !in pages[k]
  }

  ghost predicate CutOff(t: Jobs, pages: seq<seq<string>>, id: string)
    requires id in t
  {
    exists k :: CutOffAt(t, pages, id, k)
  }

  /** Everything on a page of a walk is a match, and in a later walk it is older still. */
  lemma {:induction false} OnPageMatches(t: Jobs, device: string, limit: nat, cursor: Option<int>,
                                         pages: seq<seq<string>>, k: nat, id: string)
    requires limit >= 1 && IsWalk(t, device, limit, cursor, pages) && k < |pages| && id in pages[k]
    ensures id in Matching(t, device, cursor)
    decreases |pages|
  {
    var next :| IsPage(t, device, limit, cursor, pages[0], next) &&
      (if next.None? then |pages| == 1 else IsWalk(t, device, limit, next, pages[1..]));
    if k == 0 {
      PageFacts(t, device, limit, cursor, pages[0], next);
    } else {
      OnPageMatches(t, device, limit, next, pages[1..], k - 1, id);
      CandidatesShrink(t, device, limit, cursor, pages[0], next);
    }
  }

  lemma {:induction false} WalkInOrder(t: Jobs, device: string, limit: nat, cursor: Option<int>,
                                       pages: seq<seq<string>>)
    requires limit >= 1 && IsWalk(t, device, limit, cursor, pages)
    ensures forall id :: id in Listed(pages) ==> id in Matching(t, device, cursor)
    ensures Distinct(Listed(pages)) && Newest(t, Listed(pages))
    decreases |pages|
  {
    var next :| IsPage(t, device, limit, cursor, pages[0], next) &&
      (if next.None? then |pages| == 1 else IsWalk(t, device, limit, next, pages[1..]));
    PageFacts(t, device, limit, cursor, pages[0], next);
    if next.Some? {
      WalkInOrder(t, device, limit, next, pages[1..]);
      JoinInOrder(t, pages[0], Listed(pages[1..]), next.value);
    } else {
      assert pages[1..] == [] && Listed(pages) == pages[0] + [];
    }
  }

  lemma JoinInOrder(t: Jobs, rows: seq<string>, rest: seq<string>, bound: int)
    requires forall id :: id in rows + rest ==> id in t
    requires forall id :: id in rows ==> id in t && t[id].createdAt >= bound
    requires forall id :: id in rest ==> id in t && t[id].createdAt < bound
    requires Distinct(rows) && Newest(t, rows) && Distinct(rest) && Newest(t, rest)
    ensures Distinct(rows + rest) && Newest(t, rows + rest)
  {
    var all := rows + rest;
    forall i, j | 0 <= i < j < |all| ensures all[i] != all[j] && t[all[i]].createdAt >= t[all[j]].createdAt {
      if i < |rows| <= j {
        assert rows[i] in rows && rest[j - |rows|] in rest;
      }
    }
  }

  /** A job older than the first page's last row is cut off from a walk exactly when it is from the rest of it. */
  lemma CutOffShifts(t: Jobs, pages: seq<seq<string>>, id: string)
    requires id in t && |pages| >= 2 && pages[0] != [] && pages[0][|pages[0]| - 1] in t
    requires t[id].createdAt < t[pages[0][|pages[0]| - 1]].createdAt
    ensures CutOff(t, pages, id) <==> CutOff(t, pages[1..], id)
  {
    if CutOff(t, pages, id) {
      var k :| CutOffAt(t, pages, id, k);
      assert CutOffAt(t, pages[1..], id, k - 1);
    }
    if CutOff(t, pages[1..], id) {
      var k :| CutOffAt(t, pages[1..], id, k);
      assert CutOffAt(t, pages, id, k + 1);
    }
  }

  lemma {:induction false} ListedIsOnAPage(pages: seq<seq<string>>, id: string) returns (k: nat)
    requires id in Listed(pages)
    ensures k < |pages| && id in pages[k]
  {
    if id in pages[0] {
      k := 0;
    } else {
      var j := ListedIsOnAPage(pages[1..], id);
      assert pages[1..][j] == pages[j + 1];
      k := j + 1;
    }
  }

  lemma NotOnALaterPage(t: Jobs, device: string, limit: nat, next: int, rest: seq<seq<string>>, id: string)
    requires limit >= 1 && IsWalk(t, device, limit, Some(next), rest) && id in t && t[id].createdAt >= next
    ensures id !in Listed(rest)
  {
    if id in Listed(rest) {
      var k := ListedIsOnAPage(rest, id);
      OnPageMatches(t, device, limit, Some(next), rest, k, id);
    }
  }

  lemma NotTiedLater(t: Jobs, device: string, limit: nat, next: int, pages: seq<seq<string>>, id: string, k: nat)
    requires limit >= 1 && pages != [] && IsWalk(t, device, limit, Some(next), pages[1..])
    requires id in t && t[id].createdAt >= next && k > 0
    ensures !CutOffAt(t, pages, id, k)
  {
    if k < |pages| && pages[k] != [] {
      var last := pages[k][|pages[k]| - 1];
      assert pages[1..][k - 1] == pages[k];
      OnPageMatches(t, device, limit, Some(next), pages[1..], k - 1, last);
    }
  }

  /** The case of a job not older than the first page's last row. */
  lemma FirstPageDecides(t: Jobs, device: string, limit: nat, next: Option<int>, pages: seq<seq<string>>, id: string)
    requires limit >= 1 && |pages| >= 2 && next.Some? && IsWalk(t, device, limit, next, pages[1..])
    requires id in t && t[id].createdAt >= next.value
    requires pages[0] != [] && pages[0][|pages[0]| - 1] in t && t[pages[0][|pages[0]| - 1]].createdAt == next.value
    requires t[id].createdAt > next.value ==> id in pages[0]
    ensures id in Listed(pages) <==> id in pages[0]
    ensures CutOff(t, pages, id) <==> id !in pages[0]
  {
    NotOnALaterPage(t, device, limit, next.value, pages[1..], id);
    forall k: nat | k > 0 ensures !CutOffAt(t, pages, id, k) {
      NotTiedLater(t, device, limit, next.value, pages, id, k);
    }
    assert id !in pages[0] ==> CutOffAt(t, pages, id, 0);
  }

  /** What a page says about one match. */
  lemma PageDecides(t: Jobs, device: string, limit: nat, cursor: Option<int>, rows: seq<string>, next: Option<int>,
                    id: string)
    requires limit >= 1 && IsPage(t, device, limit, cursor, rows, next) && id in Matching(t, device, cursor)
    ensures next.None? ==> id in rows
    ensures next.Some? ==>
              && |rows| == limit && rows[limit - 1] in t && t[rows[limit - 1]].createdAt == next.value
              && (t[id].createdAt > next.value ==> id in rows)
              && (id in rows ==> t[id].createdAt >= next.value)
  {
    PageFacts(t, device, limit, cursor, rows, next);
    if next.Some? {
      assert rows[limit - 1] in rows;
    }
  }

  /** A walk misses exactly the jobs cut off from a page they tie with. */
  lemma {:induction false} ListedIffNotCutOff(t: Jobs, device: string, limit: nat, cursor: Option<int>,
                                              pages: seq<seq<string>>, id: string)
    requires limit >= 1 && IsWalk(t, device, limit, cursor, pages)
    requires id in Matching(t, device, cursor)
    ensures id in Listed(pages) <==> !CutOff(t, pages, id)
    decreases |pages|
  {
    var next :| IsPage(t, device, limit, cursor, pages[0], next) &&
      (if next.None? then |pages| == 1 else IsWalk(t, device, limit, next, pages[1..]));
    PageDecides(t, device, limit, cursor, pages[0], next, id);
    if next.Some? {
      if t[id].createdAt < next.value {
        ListedIffNotCutOff(t, device, limit, next, pages[1..], id);
        CutOffShifts(t, pages, id);
      } else {
        FirstPageDecides(t, device, limit, next, pages, id);
      }
    }
  }

  ghost predicate DistinctTimes(t: Jobs, ids: set<string>) {
    ids <= t.Keys && forall i, j :: i in ids && j in ids && i != j ==> t[i].createdAt != t[j].createdAt
  }

  lemma DistinctTimesCutNothing(t: Jobs, device: string, limit: nat, pages: seq<seq<string>>, id: string)
    requires limit >= 1 && IsWalk(t, device, limit, None, pages)
    requires DistinctTimes(t, Matching(t, device, None)) && id in Matching(t, device, None)
    ensures !CutOff(t, pages, id)
  {
    if CutOff(t, pages, id) {
      var k :| CutOffAt(t, pages, id, k);
      OnPageMatches(t, device, limit, None, pages, k, pages[k][|pages[k]| - 1]);
    }
  }

  /**
   * A walk from the start, for any order of ties: it is bounded, repeats no job, never goes back in time,
   * misses exactly the cut-off jobs, and with distinct timestamps lists every job of the device once.
   */
  lemma JobWalkResult(t: Jobs, device: string, limit: nat, pages: seq<seq<string>>)
    requires limit >= 1 && IsWalk(t, device, limit, None, pages)
    ensures |pages| <= |Matching(t, device, None)| + 1
    ensures forall id :: id in Listed(pages) ==> id in Matching(t, device, None)
    ensures Distinct(Listed(pages)) && Newest(t, Listed(pages))
    ensures forall id :: id in Matching(t, device, None) ==> (id in Listed(pages) <==> !CutOff(t, pages, id))
    ensures DistinctTimes(t, Matching(t, device, None)) ==> forall id :: id in Matching(t, device, None) ==>
                id in Listed(pages)
  {
    WalkIsStarted(t, device, limit, None, pages);
    WalkIsBounded(t, device, limit, None, pages);
    WalkInOrder(t, device, limit, None, pages);
    forall id | id in Matching(t, device, None)
      ensures id in Listed(pages) <==> !CutOff(t, pages, id)
      ensures DistinctTimes(t, Matching(t, device, None)) ==> id in Listed(pages)
    {
      ListedIffNotCutOff(t, device, limit, None, pages, id);
      if DistinctTimes(t, Matching(t, device, None)) {
        DistinctTimesCutNothing(t, device, limit, pages, id);
      }
    }
  }

  lemma {:induction false} DistinctFits(rows: seq<string>, ids: set<string>)
    requires Distinct(rows) && forall id :: id in rows ==> id in ids
    ensures |rows| <= |ids|
    ensures (forall id :: id in ids ==> id in rows) ==> |rows| == |ids|
  {
    if rows == [] {
      assert (forall id :: id in ids ==> id in rows) ==> ids == {};
    } else {
      assert rows[0] in ids;
      assert rows == [rows[0]] + rows[1..];
      DistinctFits(rows[1..], ids - {rows[0]});
    }
  }

  /** When all jobs of a device fall into one second, a walk ends with its first page, whatever is left. */
  lemma TiedJobsAreMissed(t: Jobs, device: string, limit: nat, now: int, pages: seq<seq<string>>)
    requires limit >= 1 && IsWalk(t, device, limit, None, pages)
    requires forall id :: id in Matching(t, device, None) ==> t[id].createdAt == now
    ensures var n := |Matching(t, device, None)|; |Listed(pages)| == if n < limit then n else limit
  {
    var next :| IsPage(t, device, limit, None, pages[0], next) &&
      (if next.None? then |pages| == 1 else IsWalk(t, device, limit, next, pages[1..]));
    PageFacts(t, device, limit, None, pages[0], next);
    DistinctFits(pages[0], Matching(t, device, None));
    assert |pages[0]| <= limit;
    if next.Some? {
      assert pages[0][limit - 1] in pages[0];
      assert Matching(t, device, next) == {};
      WalkInOrder(t, device, limit, next, pages[1..]);
      DistinctFits(Listed(pages[1..]), {});
    } else {
      assert pages[1..] == [];
    }
  }

  /** So of more jobs than a page holds, all of one second, some are on no page of the walk that a client makes. */
  lemma TiedWalkLosesJobs(t: Jobs, device: string, limit: nat, now: int)
    requires 1 <= limit < |Matching(t, device, None)|
    requires forall x :: x in Matching(t, device, None) ==> t[x].createdAt == now
    ensures exists pages, id ::
              && IsWalk(t, device, limit, None, pages)
              && id in Matching(t, device, None) && id !in Listed(pages) && CutOff(t, pages, id)
  {
    var pages := WalkExists(t, device, limit, None);
    TiedJobsAreMissed(t, device, limit, now, pages);
    WalkInOrder(t, device, limit, None, pages);
    DistinctFits(Listed(pages), Matching(t, device, None));
    var id :| id in Matching(t, device, None) && id !in Listed(pages);
    ListedIffNotCutOff(t, device, limit, None, pages, id);
  }

  /** A table on which that happens: three jobs of one second, two to a page. */
  lemma ThreeTiedJobs()
    ensures var job := Job("d", "", Completed, None, 0);
            var t: Jobs := map["1" := job, "2" := job, "3" := job];
            exists pages, id :: IsWalk(t, "d", 2, None, pages) && id in Matching(t, "d", None) && id !in Listed(pages)
  {
    var job := Job("d", "", Completed, None, 0);
    var t: Jobs := map["1" := job, "2" := job, "3" := job];
    assert Matching(t, "d", None) == {"1", "2", "3"};
    TiedWalkLosesJobs(t, "d", 2, 0);
  }
}
