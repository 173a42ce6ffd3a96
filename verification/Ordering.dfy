/** SQLite's BINARY text order, and the one increasing sequence of a set of strings. */
module Ordering {

  predicate Less(a: string, b: string) {
    b != "" && (a == "" || a[0] < b[0] || (a[0] == b[0] && Less(a[1..], b[1..])))
  }

  /** Two texts agree on their first `k` characters, and then the first ends or has the smaller character. */
  predicate DifferAt(a: string, b: string, k: nat) {
    k <= |a| && k < |b| && a[..k] == b[..k] && (k == |a| || a[k] < b[k])
  }

  lemma {:induction false} LessIsFirstDifference(a: string, b: string)
    ensures Less(a, b) <==>
              exists k: nat :: k <= |a| && k < |b| && a[..k] == b[..k] && (k == |a| || a[k] < b[k])
  {
    if Less(a, b) {
      FirstDifference(a, b);
      var k: nat :| DifferAt(a, b, k);
      assert k <= |a| && k < |b| && a[..k] == b[..k] && (k == |a| || a[k] < b[k]);
    }
    forall k: nat | k <= |a| && k < |b| && a[..k] == b[..k] && (k == |a| || a[k] < b[k]) ensures Less(a, b) {
      DifferingIsLess(a, b, k);
    }
  }

  lemma {:induction false} FirstDifference(a: string, b: string)
    requires Less(a, b)
    ensures exists k: nat :: DifferAt(a, b, k)
  {
    if a == "" || a[0] < b[0] {
      assert DifferAt(a, b, 0);
    } else {
      FirstDifference(a[1..], b[1..]);
      var j: nat :| DifferAt(a[1..], b[1..], j);
      assert a[..j + 1] == [a[0]] + a[1..][..j] && b[..j + 1] == [b[0]] + b[1..][..j];
      assert DifferAt(a, b, j + 1);
    }
  }

  lemma {:induction false} DifferingIsLess(a: string, b: string, k: nat)
    requires DifferAt(a, b, k)
    ensures Less(a, b)
    decreases k
  {
    if k > 0 {
      assert a[..k][0] == b[..k][0];
      assert a[1..][..k - 1] == a[..k][1..] && b[1..][..k - 1] == b[..k][1..];
      DifferingIsLess(a[1..], b[1..], k - 1);
    }
  }

  lemma {:induction false} LessTotal(a: string, b: string)
    ensures a == b || Less(a, b) || Less(b, a)
    ensures !(Less(a, b) && Less(b, a)) && !Less(a, a)
  {
    if a != "" {
      LessTotal(a[1..], a[1..]);
      if b != "" {
        LessTotal(a[1..], b[1..]);
        assert a == [a[0]] + a[1..] && b == [b[0]] + b[1..];
      }
    }
  }

  lemma {:induction false} LessTransitive(a: string, b: string, c: string)
    requires Less(a, b) && Less(b, c)
    ensures Less(a, c)
  {
    if a != "" && a[0] == b[0] && b[0] == c[0] {
      LessTransitive(a[1..], b[1..], c[1..]);
    }
  }

  predicate IsLeast(ids: set<string>, m: string) {
    m in ids && forall x :: x in ids ==> x == m || Less(m, x)
  }

  lemma {:induction false} LeastExists(ids: set<string>)
    requires ids != {}
    ensures exists m :: IsLeast(ids, m)
  {
    var x :| x in ids;
    if ids == {x} {
      assert IsLeast(ids, x);
    } else {
      LeastExists(ids - {x});
      var m :| IsLeast(ids - {x}, m);
      LessTotal(m, x);
      if Less(x, m) {
        forall y | y in ids - {x} ensures Less(x, y) {
          if y != m {
            LessTransitive(x, m, y);
          }
        }
        assert IsLeast(ids, x);
      } else {
        assert IsLeast(ids, m);
      }
    }
  }

  lemma LeastUnique(ids: set<string>)
    ensures forall m, n :: IsLeast(ids, m) && IsLeast(ids, n) ==> m == n
  {
    forall m, n | IsLeast(ids, m) && IsLeast(ids, n) ensures m == n {
      LessTotal(m, n);
    }
  }

  function Least(ids: set<string>): (m: string)
    requires ids != {}
    ensures IsLeast(ids, m)
  {
    LeastExists(ids);
    LeastUnique(ids);
    var m :| IsLeast(ids, m);
    m
  }

  predicate Increasing(s: seq<string>) {
    forall i, j :: 0 <= i < j < |s| ==> Less(s[i], s[j])
  }

  /** ORDER BY on distinct keys. */
  function Sorted(ids: set<string>): (s: seq<string>)
    ensures Increasing(s)
    ensures forall x :: x in s <==> x in ids
    decreases |ids|
  {
    if ids == {} then []
    else
      var m := Least(ids);
      var rest := Sorted(ids - {m});
      assert forall j :: 0 <= j < |rest| ==> rest[j] in rest;
      [m] + rest
  }

  lemma {:induction false} SortedUnique(s: seq<string>, ids: set<string>)
    requires Increasing(s) && forall x :: x in s <==> x in ids
    ensures s == Sorted(ids)
    decreases |s|
  {
    if s == [] {
      assert ids == {};
    } else {
      var m := s[0];
      assert IsLeast(ids, m);
      LeastUnique(ids);
      forall x ensures x in s[1..] <==> x in ids - {m} {
        LessTotal(m, m);
        if x in s[1..] {
          var i :| 1 <= i < |s| && s[i] == x;
          assert Less(s[0], s[i]);
        }
        assert x in s ==> x == m || x in s[1..];
      }
      SortedUnique(s[1..], ids - {m});
    }
  }

  lemma {:induction false} SortedSize(ids: set<string>)
    ensures |Sorted(ids)| == |ids|
    decreases |ids|
  {
    if ids != {} {
      SortedSize(ids - {Least(ids)});
    }
  }

  lemma PositionOfGreater(s: seq<string>, k: nat, i: nat)
    requires Increasing(s) && k < |s| && i < |s|
    ensures Less(s[k], s[i]) <==> k < i
  {
    LessTotal(s[i], s[k]);
  }

  function Above(ids: set<string>, m: string): set<string> {
    set x | x in ids && Less(m, x)
  }

  /** What is left above the k-th key is the tail of the sequence. */
  lemma SortedTail(ids: set<string>, k: nat)
    requires k < |Sorted(ids)|
    ensures Sorted(Above(ids, Sorted(ids)[k])) == Sorted(ids)[k + 1..]
  {
    var s := Sorted(ids);
    var above := Above(ids, s[k]);
    var tail := s[k + 1..];
    forall x | x in tail ensures x in above {
      var i :| 0 <= i < |tail| && tail[i] == x;
      PositionOfGreater(s, k, k + 1 + i);
      assert s[k + 1 + i] in s;
    }
    forall x | x in above ensures x in tail {
      var i :| 0 <= i < |s| && s[i] == x;
      PositionOfGreater(s, k, i);
      assert tail[i - k - 1] == x;
    }
    assert Increasing(tail) by {
      forall i, j | 0 <= i < j < |tail| ensures Less(tail[i], tail[j]) {
        assert tail[i] == s[k + 1 + i] && tail[j] == s[k + 1 + j];
      }
    }
    SortedUnique(tail, above);
  }
}
