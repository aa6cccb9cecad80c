/** Text order and `ROW_NUMBER() OVER (ORDER BY ...)` over a set of rows. */
module Ranking {
  /** The order of text columns: by character, a prefix first. */
  predicate TextLess(a: string, b: string) {
    if b == "" then false
    else if a == "" then true
    else a[0] < b[0] || (a[0] == b[0] && TextLess(a[1..], b[1..]))
  }

  lemma {:induction false} TextConnected(a: string, b: string)
    ensures TextLess(a, b) || a == b || TextLess(b, a)
    ensures !(TextLess(a, b) && TextLess(b, a)) && (a == b ==> !TextLess(a, b))
  {
    if a != "" && b != "" && a[0] == b[0] {
      TextConnected(a[1..], b[1..]);
      assert a == [a[0]] + a[1..] && b == [b[0]] + b[1..];
    }
  }

  lemma {:induction false} TextTransitive(a: string, b: string, c: string)
    requires TextLess(a, b) && TextLess(b, c)
    ensures TextLess(a, c)
  {
    if a != "" && b != "" && c != "" && a[0] == b[0] && b[0] == c[0] { TextTransitive(a[1..], b[1..], c[1..]); }
  }

  /** `a` comes before `b` where they first differ, or ends there. */
  ghost predicate DiffersFirst(a: string, b: string, i: nat) {
    && i <= |a| && i <= |b| && a[..i] == b[..i]
    && i < |b| && (i == |a| || a[i] < b[i])
  }

  lemma SameBefore(a: string, b: string, i: nat)
    ensures DiffersFirst(a, b, i) && i > 0 ==> a != "" && b != "" && a[0] == b[0]
  {
    if DiffersFirst(a, b, i) && i > 0 { assert a[0] == a[..i][0] && b[0] == b[..i][0]; }
  }

  lemma {:induction false} TextLessMeans(a: string, b: string)
    ensures TextLess(a, b) <==> exists i: nat :: DiffersFirst(a, b, i)
  {
    if a != "" && b != "" && a[0] == b[0] {
      TextLessMeans(a[1..], b[1..]);
      if i: nat :| DiffersFirst(a[1..], b[1..], i) {
        assert a[..i + 1] == [a[0]] + a[1..][..i] && b[..i + 1] == [b[0]] + b[1..][..i];
        assert DiffersFirst(a, b, i + 1);
      }
      if i: nat :| DiffersFirst(a, b, i) {
        assert i > 0;
        assert a[1..][..i - 1] == a[..i][1..] && b[1..][..i - 1] == b[..i][1..];
        assert DiffersFirst(a[1..], b[1..], i - 1);
      }
    } else if b != "" {
      forall i: nat { SameBefore(a, b, i); }
      if TextLess(a, b) { assert DiffersFirst(a, b, 0); }
    }
  }

  lemma TextLeastExists(s: set<string>, t: string)
    requires t in s
    ensures exists m :: m in s && forall u :: u in s && u != m ==> TextLess(m, u)
    decreases s
  {
    if u :| u in s && u != t && TextLess(u, t) {
      TextLeastExists(s - {t}, u);
      var m :| m in s - {t} && forall v :: v in s - {t} && v != m ==> TextLess(m, v);
      forall v | v in s && v != m ensures TextLess(m, v) {
        if v == t {
          if m != u { TextTransitive(m, u, t); }
        }
      }
    } else {
      forall u | u in s && u != t ensures TextLess(t, u) { TextConnected(t, u); }
    }
  }

  function LeastText(s: set<string>): (m: string)
    requires exists t :: t in s
    ensures m in s && forall u :: u in s && u != m ==> TextLess(m, u)
  {
    assert exists m :: m in s && forall u :: u in s && u != m ==> TextLess(m, u) by {
      var t :| t in s;
      TextLeastExists(s, t);
    }
    assert forall m, n :: m in s && n in s && TextLess(m, n) ==> !TextLess(n, m) by {
      forall m, n | m in s && n in s && TextLess(m, n) ensures !TextLess(n, m) { TextConnected(m, n); }
    }
    var m :| m in s && forall u :: u in s && u != m ==> TextLess(m, u);
    m
  }

  function SortedTexts(s: set<string>): (r: seq<string>)
    ensures forall t :: t in r <==> t in s
    ensures forall i, j :: 0 <= i < j < |r| ==> TextLess(r[i], r[j])
    decreases s
  {
    if exists t :: t in s then [LeastText(s)] + SortedTexts(s - {LeastText(s)}) else []
  }

  /** No ties, no cycles, and any two rows compare. */
  ghost predicate Ordered<T(!new)>(rows: set<T>, before: (T, T) -> bool) {
    && (forall x :: x in rows ==> !before(x, x))
    && (forall x, y, z :: x in rows && y in rows && z in rows && before(x, y) && before(y, z) ==> before(x, z))
    && (forall x, y :: x in rows && y in rows && x != y ==> before(x, y) || before(y, x))
  }

  function Ahead<T(==)>(rows: set<T>, before: (T, T) -> bool, x: T): set<T> {
    set y | y in rows && before(y, x)
  }

  function RowNumber<T(==)>(rows: set<T>, before: (T, T) -> bool, x: T): nat {
    |Ahead(rows, before, x)| + 1
  }

  lemma SmallerSet<T>(a: set<T>, b: set<T>, x: T)
    requires a <= b && x in b && x !in a
    ensures |a| < |b|
  {
    assert a <= b - {x};
    SubsetSize(a, b - {x});
  }

  lemma {:induction false} SubsetSize<T>(a: set<T>, b: set<T>)
    requires a <= b
    ensures |a| <= |b|
  {
    if a != {} {
      var x :| x in a;
      SubsetSize(a - {x}, b - {x});
    }
  }

  /** A row ahead of another has the smaller number, so no two rows share one. */
  lemma RowNumberFollowsOrder<T(!new)>(rows: set<T>, before: (T, T) -> bool, x: T, y: T)
    requires Ordered(rows, before) && x in rows && y in rows
    ensures before(x, y) <==> RowNumber(rows, before, x) < RowNumber(rows, before, y)
    ensures x == y <==> RowNumber(rows, before, x) == RowNumber(rows, before, y)
  {
    if before(x, y) {
      SmallerSet(Ahead(rows, before, x), Ahead(rows, before, y), x);
    } else if x != y {
      SmallerSet(Ahead(rows, before, y), Ahead(rows, before, x), y);
    }
  }

  lemma RowNumberInRange<T(!new)>(rows: set<T>, before: (T, T) -> bool, x: T)
    requires Ordered(rows, before) && x in rows
    ensures 1 <= RowNumber(rows, before, x) <= |rows|
  {
    SmallerSet(Ahead(rows, before, x), rows, x);
  }

  /** The row with a given number, if there is one. */
  function Nth<T(!new,==)>(rows: set<T>, before: (T, T) -> bool, n: nat): (r: set<T>)
    ensures r <= rows
  {
    set x | x in rows && RowNumber(rows, before, x) == n
  }

  /** The numbers run from 1 to the number of rows without a gap. */
  lemma {:induction false} NthExists<T(!new)>(rows: set<T>, before: (T, T) -> bool, n: nat)
    requires Ordered(rows, before) && 1 <= n <= |rows|
    ensures exists x :: Nth(rows, before, n) == {x}
    decreases |rows|
  {
    var last := Last(rows, before);
    var rest := rows - {last};
    forall x | x in rest ensures RowNumber(rest, before, x) == RowNumber(rows, before, x) {
      assert Ahead(rest, before, x) == Ahead(rows, before, x);
    }
    assert Ahead(rows, before, last) == rest;
    if n == |rows| {
      assert last in Nth(rows, before, n);
      OnlyOne(rows, before, n, last);
    } else {
      NthExists(rest, before, n);
      var x :| Nth(rest, before, n) == {x};
      assert x in Nth(rest, before, n);
      OnlyOne(rows, before, n, x);
    }
  }

  lemma OnlyOne<T(!new)>(rows: set<T>, before: (T, T) -> bool, n: nat, x: T)
    requires Ordered(rows, before) && x in rows && RowNumber(rows, before, x) == n
    ensures Nth(rows, before, n) == {x}
  {
    forall y | y in Nth(rows, before, n) ensures y == x { RowNumberFollowsOrder(rows, before, x, y); }
  }

  /** The row that no other is behind. */
  lemma {:induction false} Last<T(!new)>(rows: set<T>, before: (T, T) -> bool) returns (last: T)
    requires Ordered(rows, before) && rows != {}
    ensures last in rows && forall x :: x in rows && x != last ==> before(x, last)
    decreases |rows|
  {
    var x :| x in rows;
    if rows == {x} {
      last := x;
    } else {
      assert rows - {x} != {} by { assert rows == (rows - {x}) + {x}; }
      last := Last(rows - {x}, before);
      if before(last, x) { last := x; }
    }
  }

  /** The first of some of the rows. */
  lemma {:induction false} FirstOf<T(!new)>(rows: set<T>, before: (T, T) -> bool, some: set<T>) returns (first: T)
    requires Ordered(rows, before) && some <= rows && some != {}
    ensures first in some && Ahead(rows, before, first) * some == {}
    decreases |some|
  {
    first :| first in some;
    var ahead := Ahead(rows, before, first) * some;
    if ahead != {} {
      SmallerSet(ahead, some, first);
      var x := FirstOf(rows, before, ahead);
      forall y | y in Ahead(rows, before, x) * some ensures y in Ahead(rows, before, x) * ahead {
      }
      first := x;
    }
  }
}
