/** Table cells and the order in which Python's `sorted` arranges group
    labels. A cell holds a number, a string, or nothing (pandas' NaN/None). */
module Cells {

  datatype Cell = Num(value: real) | Text(text: string) | Missing

  /** Python's `str` comparison: code point by code point, a proper prefix
      first. */
  predicate TextLess(a: string, b: string)
  {
    if |a| == 0 then |b| > 0
    else if |b| == 0 then false
    else if a[0] != b[0] then a[0] < b[0]
    else TextLess(a[1..], b[1..])
  }

  /** A strict total order on cells. Between two numbers or two strings it is
      Python's `<`; across kinds (where Python raises `TypeError`) it puts
      missing cells first and numbers before strings. */
  predicate Less(x: Cell, y: Cell)
  {
    match (x, y)
    case (Num(a), Num(b)) => a < b
    case (Text(a), Text(b)) => TextLess(a, b)
    case (Missing, Missing) => false
    case (Missing, _) => true
    case (Num(_), Text(_)) => true
    case (_, _) => false
  }

  /** Python's `bool(x)`: zero and the empty string are false, NaN is true. */
  predicate Truthy(c: Cell)
  {
    match c
    case Num(v) => v != 0.0
    case Text(s) => s != ""
    case Missing => true
  }

  /** Python's `sorted` succeeds on the values: all numbers or all strings
      (no missing value, no mix of the two kinds). */
  predicate Orderable(s: seq<Cell>)
  {
    (forall i | 0 <= i < |s| :: s[i].Num?) || (forall i | 0 <= i < |s| :: s[i].Text?)
  }

  // ---------------------------------------------------------------------
  // Less is a strict total order
  // ---------------------------------------------------------------------

  lemma {:induction false} TextLessIrreflexive(a: string)
    ensures !TextLess(a, a)
  {
    if |a| > 0 {
      TextLessIrreflexive(a[1..]);
    }
  }

  lemma {:induction false} TextLessTransitive(a: string, b: string, c: string)
    requires TextLess(a, b) && TextLess(b, c)
    ensures TextLess(a, c)
  {
    if |a| > 0 && |b| > 0 && |c| > 0 && a[0] == b[0] && b[0] == c[0] {
      TextLessTransitive(a[1..], b[1..], c[1..]);
    }
  }

  lemma {:induction false} TextLessTotal(a: string, b: string)
    ensures a == b || TextLess(a, b) || TextLess(b, a)
  {
    if |a| > 0 && |b| > 0 && a[0] == b[0] {
      TextLessTotal(a[1..], b[1..]);
      if a[1..] == b[1..] {
        assert a == [a[0]] + a[1..] && b == [b[0]] + b[1..];
      }
    }
  }

  lemma LessIrreflexive(x: Cell)
    ensures !Less(x, x)
  {
    if x.Text? {
      TextLessIrreflexive(x.text);
    }
  }

  lemma LessTransitive(x: Cell, y: Cell, z: Cell)
    requires Less(x, y) && Less(y, z)
    ensures Less(x, z)
  {
    if x.Text? && y.Text? && z.Text? {
      TextLessTransitive(x.text, y.text, z.text);
    }
  }

  lemma LessTotal(x: Cell, y: Cell)
    ensures x == y || Less(x, y) || Less(y, x)
  {
    if x.Text? && y.Text? {
      TextLessTotal(x.text, y.text);
    }
  }

  // ---------------------------------------------------------------------
  // sorted(unique(values))
  // ---------------------------------------------------------------------

  predicate StrictlyIncreasing(s: seq<Cell>)
  {
    forall i, j :: 0 <= i < j < |s| ==> Less(s[i], s[j])
  }

  /** Adds `x` to a strictly increasing list unless it is already there. */
  function InsertLabel(x: Cell, s: seq<Cell>): (r: seq<Cell>)
    requires StrictlyIncreasing(s)
    ensures StrictlyIncreasing(r)
    ensures forall y :: y in r <==> y == x || y in s
  {
    if |s| == 0 then [x]
    else if x == s[0] then s
    else if Less(x, s[0]) then
      assert forall j | 0 < j < |s| :: Less(x, s[j]) by {
        forall j | 0 < j < |s| ensures Less(x, s[j]) {
          LessTransitive(x, s[0], s[j]);
        }
      }
      [x] + s
    else
      LessTotal(x, s[0]);
      var rest := InsertLabel(x, s[1..]);
      assert s == [s[0]] + s[1..];
      assert forall k | 0 <= k < |rest| :: Less(s[0], rest[k]) by {
        forall k | 0 <= k < |rest| ensures Less(s[0], rest[k]) {
          assert rest[k] in rest;
        }
      }
      [s[0]] + rest
  }

  /** `sorted(column.unique())`: the distinct values in ascending order. */
  function SortedDistinct(s: seq<Cell>): (r: seq<Cell>)
    ensures StrictlyIncreasing(r)
    ensures forall y :: y in r <==> y in s
  {
    if |s| == 0 then []
    else
      assert s == s[..|s| - 1] + [s[|s| - 1]];
      InsertLabel(s[|s| - 1], SortedDistinct(s[..|s| - 1]))
  }

  /** A strictly increasing list has no duplicates. */
  lemma StrictlyIncreasingIsDistinct(s: seq<Cell>)
    requires StrictlyIncreasing(s)
    ensures forall i, j :: 0 <= i < j < |s| ==> s[i] != s[j]
  {
    forall i, j | 0 <= i < j < |s| ensures s[i] != s[j] {
      if s[i] == s[j] {
        LessIrreflexive(s[i]);
      }
    }
  }

  /** Two strictly increasing lists with the same elements are equal, so the
      sorted distinct labels of a column are determined by its values. */
  lemma {:induction false} StrictlyIncreasingUnique(r1: seq<Cell>, r2: seq<Cell>)
    requires StrictlyIncreasing(r1) && StrictlyIncreasing(r2)
    requires forall y :: y in r1 <==> y in r2
    ensures r1 == r2
  {
    assert |r1| > 0 ==> r1[0] in r1;
    assert |r2| > 0 ==> r2[0] in r2;
    if |r1| > 0 {
      if r1[0] != r2[0] {
        var i :| 0 <= i < |r1| && r1[i] == r2[0];
        var j :| 0 <= j < |r2| && r2[j] == r1[0];
        assert Less(r1[0], r2[0]) && Less(r2[0], r1[0]);
        LessTransitive(r1[0], r2[0], r1[0]);
        LessIrreflexive(r1[0]);
        assert false;
      }
      forall y ensures y in r1[1..] <==> y in r2[1..] {
        if y in r1[1..] {
          var i :| 1 <= i < |r1| && r1[i] == y;
          assert Less(r1[0], y);
          LessIrreflexive(y);
          assert y in r2;
          assert y != r2[0];
        }
        if y in r2[1..] {
          var j :| 1 <= j < |r2| && r2[j] == y;
          assert Less(r2[0], y);
          LessIrreflexive(y);
          assert y in r1;
          assert y != r1[0];
        }
      }
      StrictlyIncreasingUnique(r1[1..], r2[1..]);
      assert r1 == [r1[0]] + r1[1..] && r2 == [r2[0]] + r2[1..];
    }
  }
}
