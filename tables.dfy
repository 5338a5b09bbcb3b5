/** The loaded table (a pandas DataFrame read from CSV) and the queries the
    data processor makes of it: column lookup, missing-value count, column
    kinds, and the rows of one group. */
module Tables {
  import opened Outcomes
  import opened Cells

  /** Column dtypes, as far as the analysis tells them apart. `OtherNumber`
      stands for the numpy numeric dtypes outside the four that
      `set_group_and_target` accepts (int8, uint64, float16, ...). */
  datatype DType =
    | Int64 | Int32 | Float64 | Float32 | OtherNumber
    | Boolean | ObjectType | Category | DateTime

  /** Selected by `select_dtypes(include=np.number)`. */
  predicate IsNumeric(d: DType)
  {
    d.Int64? || d.Int32? || d.Float64? || d.Float32? || d.OtherNumber?
  }

  /** Selected by `select_dtypes(include=['object', 'category'])`. */
  predicate IsCategorical(d: DType)
  {
    d.ObjectType? || d.Category?
  }

  /** The target dtypes `set_group_and_target` accepts. */
  predicate IsAcceptedTarget(d: DType)
  {
    d.Float64? || d.Int64? || d.Float32? || d.Int32?
  }

  datatype Column = Column(name: string, dtype: DType, cells: seq<Cell>)

  datatype Table = Table(rows: nat, columns: seq<Column>)

  /** What `pd.read_csv` guarantees: rectangular, distinct column names, and
      no strings in a numeric column. */
  predicate WellFormed(t: Table)
  {
    && (forall i | 0 <= i < |t.columns| :: |t.columns[i].cells| == t.rows)
    && (forall i, j | 0 <= i < j < |t.columns| :: t.columns[i].name != t.columns[j].name)
    && (forall c | c in t.columns && IsNumeric(c.dtype) :: NoText(c.cells))
  }

  predicate NoText(cells: seq<Cell>)
  {
    forall k | 0 <= k < |cells| :: !cells[k].Text?
  }

  /** `DataFrame.empty`: no rows or no columns. */
  predicate IsEmpty(t: Table)
  {
    t.rows == 0 || |t.columns| == 0
  }

  /** `name in df.columns`, returning the column found. */
  function FindColumn(cols: seq<Column>, name: string): (r: Option<Column>)
    ensures r.Some? ==> r.value in cols && r.value.name == name
    ensures r.None? <==> forall c | c in cols :: c.name != name
  {
    if |cols| == 0 then None
    else if cols[0].name == name then Some(cols[0])
    else
      assert cols == [cols[0]] + cols[1..];
      FindColumn(cols[1..], name)
  }

  // ---------------------------------------------------------------------
  // Missing values: df.isnull().sum().sum()
  // ---------------------------------------------------------------------

  function CountMissing(cells: seq<Cell>): nat
  {
    if |cells| == 0 then 0
    else CountMissing(cells[..|cells| - 1]) + (if cells[|cells| - 1].Missing? then 1 else 0)
  }

  function MissingCount(cols: seq<Column>): nat
  {
    if |cols| == 0 then 0 else CountMissing(cols[0].cells) + MissingCount(cols[1..])
  }

  predicate NoMissing(cells: seq<Cell>)
  {
    forall k | 0 <= k < |cells| :: !cells[k].Missing?
  }

  lemma {:induction false} CountMissingZero(cells: seq<Cell>)
    ensures CountMissing(cells) == 0 <==> NoMissing(cells)
  {
    if |cells| > 0 {
      CountMissingZero(cells[..|cells| - 1]);
    }
  }

  /** The table holds no missing value exactly when the count is zero. */
  lemma {:induction false} MissingCountZero(cols: seq<Column>)
    ensures MissingCount(cols) == 0 <==> forall c | c in cols :: NoMissing(c.cells)
  {
    if |cols| > 0 {
      CountMissingZero(cols[0].cells);
      MissingCountZero(cols[1..]);
      assert cols == [cols[0]] + cols[1..];
    }
  }

  // ---------------------------------------------------------------------
  // Column kinds
  // ---------------------------------------------------------------------

  /** The names of the numeric columns, in column order. */
  function NumericNames(cols: seq<Column>): (r: seq<string>)
    ensures forall n :: n in r <==> exists c | c in cols :: c.name == n && IsNumeric(c.dtype)
  {
    if |cols| == 0 then []
    else
      assert cols == [cols[0]] + cols[1..];
      (if IsNumeric(cols[0].dtype) then [cols[0].name] else []) + NumericNames(cols[1..])
  }

  /** The names of the object and category columns, in column order. */
  function CategoricalNames(cols: seq<Column>): (r: seq<string>)
    ensures forall n :: n in r <==> exists c | c in cols :: c.name == n && IsCategorical(c.dtype)
  {
    if |cols| == 0 then []
    else
      assert cols == [cols[0]] + cols[1..];
      (if IsCategorical(cols[0].dtype) then [cols[0].name] else []) + CategoricalNames(cols[1..])
  }

  /** No column name is both numeric and categorical, since column names are
      distinct and a dtype is of at most one kind. */
  lemma ColumnKindsDisjoint(t: Table, n: string)
    requires WellFormed(t)
    ensures !(n in NumericNames(t.columns) && n in CategoricalNames(t.columns))
  {
    forall c1, c2 | c1 in t.columns && c2 in t.columns && c1.name == n && c2.name == n
      ensures c1 == c2
    {
      var i :| 0 <= i < |t.columns| && t.columns[i] == c1;
      var j :| 0 <= j < |t.columns| && t.columns[j] == c2;
      assert !(i < j) && !(j < i);
    }
  }

  // ---------------------------------------------------------------------
  // The rows of one group: df[df[group_col] == name][target_col]
  // ---------------------------------------------------------------------

  /** pandas' elementwise `==`: a missing cell equals nothing. */
  predicate Matches(c: Cell, group: Cell)
  {
    !c.Missing? && c == group
  }

  /** The number of rows whose group cell equals `group`. */
  function Occurrences(g: seq<Cell>, group: Cell): nat
  {
    if |g| == 0 then 0
    else Occurrences(g[..|g| - 1], group) + (if Matches(g[|g| - 1], group) then 1 else 0)
  }

  /** The positions of the rows whose group cell equals `group`: exactly
      those rows, in increasing order. */
  function MatchingRows(g: seq<Cell>, group: Cell): (rows: seq<nat>)
    ensures |rows| == Occurrences(g, group)
    ensures forall j | 0 <= j < |rows| :: rows[j] < |g| && Matches(g[rows[j]], group)
    ensures forall k | 0 <= k < |g| && Matches(g[k], group) :: k in rows
    ensures forall i, j | 0 <= i < j < |rows| :: rows[i] < rows[j]
  {
    if |g| == 0 then []
    else
      var n := |g| - 1;
      var prefix := MatchingRows(g[..n], group);
      assert forall k | 0 <= k < n && Matches(g[k], group) :: k in prefix by {
        forall k | 0 <= k < n && Matches(g[k], group) ensures k in prefix {
          assert g[..n][k] == g[k];
        }
      }
      prefix + (if Matches(g[n], group) then [n] else [])
  }

  /** The target cells of the rows whose group cell equals `group`, in row
      order (`SelectFollowsRows`). */
  function Select(g: seq<Cell>, t: seq<Cell>, group: Cell): (r: seq<Cell>)
    requires |g| == |t|
    ensures |r| == Occurrences(g, group)
    ensures forall x | x in r :: x in t
  {
    if |g| == 0 then []
    else
      var n := |g| - 1;
      var prefix := Select(g[..n], t[..n], group);
      assert forall x | x in prefix :: x in t by {
        forall x | x in prefix ensures x in t {
          assert x in t[..n];
        }
      }
      prefix + (if Matches(g[n], group) then [t[n]] else [])
  }

  /** The `j`-th value of a group's data is the target cell of the `j`-th
      row whose group cell equals the label. */
  lemma {:induction false} SelectFollowsRows(g: seq<Cell>, t: seq<Cell>, group: Cell)
    requires |g| == |t|
    ensures |Select(g, t, group)| == |MatchingRows(g, group)|
    ensures forall j | 0 <= j < |Select(g, t, group)| :: Select(g, t, group)[j] == t[MatchingRows(g, group)[j]]
  {
    if |g| > 0 {
      var n := |g| - 1;
      SelectFollowsRows(g[..n], t[..n], group);
      var prefix, rows := Select(g[..n], t[..n], group), MatchingRows(g[..n], group);
      forall j | 0 <= j < |prefix| ensures prefix[j] == t[rows[j]] {
        assert rows[j] < n;
      }
    }
  }

  /** The group data of every group, concatenated in group order (the
      `all_data` list the hypothesis test builds). */
  function Concat(groups: seq<Cell>, g: seq<Cell>, t: seq<Cell>): seq<Cell>
    requires |g| == |t|
  {
    if |groups| == 0 then [] else Select(g, t, groups[0]) + Concat(groups[1..], g, t)
  }

  predicate Distinct(groups: seq<Cell>)
  {
    forall i, j | 0 <= i < j < |groups| :: groups[i] != groups[j]
  }

  /** Appending one row adds its target cell to the partition of the group
      it matches, and to no other. */
  lemma {:induction false} ConcatStep(groups: seq<Cell>, g: seq<Cell>, t: seq<Cell>, x: Cell, y: Cell)
    requires |g| == |t| && Distinct(groups) && !x.Missing?
    ensures multiset(Concat(groups, g + [x], t + [y]))
         == multiset(Concat(groups, g, t)) + (if x in groups then multiset{y} else multiset{})
  {
    if |groups| > 0 {
      var l, rest := groups[0], groups[1..];
      SelectStep(g, t, x, y, l);
      DistinctTail(groups);
      ConcatStep(rest, g, t, x, y);
      var sel, extra: seq<Cell> := Select(g, t, l), if Matches(x, l) then [y] else [];
      var before, after := Concat(rest, g, t), Concat(rest, g + [x], t + [y]);
      var added: multiset<Cell> := if x in rest then multiset{y} else multiset{};
      assert Concat(groups, g + [x], t + [y]) == (sel + extra) + after;
      assert Concat(groups, g, t) == sel + before;
      assert x in groups <==> x == l || x in rest by {
        assert groups == [l] + rest;
      }
      assert (if x in groups then multiset{y} else multiset{}) == multiset(extra) + added;
      UnionRearrange(multiset(sel), multiset(extra), multiset(before), added);
    }
  }

  /** Multiset union may be regrouped. */
  lemma UnionRearrange(a: multiset<Cell>, b: multiset<Cell>, c: multiset<Cell>, d: multiset<Cell>)
    ensures (a + b) + (c + d) == (a + c) + (b + d)
  {
  }

  /** Appending a row to the columns appends its target cell to the data of
      its own group only. */
  lemma SelectStep(g: seq<Cell>, t: seq<Cell>, x: Cell, y: Cell, l: Cell)
    requires |g| == |t|
    ensures Select(g + [x], t + [y], l) == Select(g, t, l) + (if Matches(x, l) then [y] else [])
  {
    assert (g + [x])[..|g|] == g && (t + [y])[..|t|] == t;
  }

  /** The labels after the first are distinct and do not repeat it. */
  lemma DistinctTail(groups: seq<Cell>)
    requires Distinct(groups) && |groups| > 0
    ensures Distinct(groups[1..]) && groups[0] !in groups[1..]
  {
    var rest := groups[1..];
    forall i, j | 0 <= i < j < |rest| ensures rest[i] != rest[j] {
      assert rest[i] == groups[i + 1] && rest[j] == groups[j + 1];
    }
    forall k | 0 <= k < |rest| ensures rest[k] != groups[0] {
      assert rest[k] == groups[k + 1];
    }
  }

  /** Every row belongs to exactly one group, so the per-group data taken
      together is a permutation of the target column. */
  lemma {:induction false} PartitionIsPermutation(groups: seq<Cell>, g: seq<Cell>, t: seq<Cell>)
    requires |g| == |t| && Distinct(groups)
    requires forall k | 0 <= k < |g| :: g[k] in groups && !g[k].Missing?
    ensures multiset(Concat(groups, g, t)) == multiset(t)
  {
    if |g| == 0 {
      ConcatEmpty(groups, g, t);
    } else {
      var n := |g| - 1;
      SplitLast(g);
      SplitLast(t);
      PartitionIsPermutation(groups, g[..n], t[..n]);
      ConcatStep(groups, g[..n], t[..n], g[n], t[n]);
    }
  }

  /** A non-empty column is its first rows followed by its last row. */
  lemma SplitLast(s: seq<Cell>)
    requires |s| > 0
    ensures s[..|s| - 1] + [s[|s| - 1]] == s
  {
  }

  lemma {:induction false} ConcatEmpty(groups: seq<Cell>, g: seq<Cell>, t: seq<Cell>)
    requires |g| == |t| == 0
    ensures Concat(groups, g, t) == []
  {
    if |groups| > 0 {
      ConcatEmpty(groups[1..], g, t);
    }
  }

  /** A group that occurs in the group column has at least one row. */
  lemma {:induction false} OccurringLabelHasRows(g: seq<Cell>, group: Cell)
    requires group in g && !group.Missing?
    ensures Occurrences(g, group) >= 1
  {
    var n := |g| - 1;
    if g[n] != group {
      assert group in g[..n] by {
        var k :| 0 <= k < |g| && g[k] == group;
        assert k < n;
        assert g[..n][k] == group;
      }
      OccurringLabelHasRows(g[..n], group);
    }
  }
}
