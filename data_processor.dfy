/** `DataProcessor` (utils/data_processor.py): holds the loaded table and the
    chosen group and target columns, and hands out the target values of each
    group. */
module DataProcessing {
  import opened Outcomes
  import opened Cells
  import opened Tables

  /** The `ValueError`s (and the errors Python raises on the way) that the
      processor reports. */
  datatype DataError =
    | ParseFailure               // pd.read_csv itself raised
    | EmptyTable                 // the parsed DataFrame is empty
    | NotLoaded                  // no table loaded yet
    | ColumnAbsent(name: string) // a named column is not in the table
    | Unorderable                // sorted() raised TypeError on the group values
    | NotNumeric(name: string)   // the target column's dtype is refused
    | Unconfigured               // data, group column or target column unset
    | GroupsUnset                // the group list is None where it is iterated

  /** Which message `validate_data` returns. */
  datatype ValidationMessage = NoData | TooFewRows | HasMissing(count: nat) | Complete

  datatype Validation = Validation(ok: bool, message: ValidationMessage)

  datatype ColumnKinds = ColumnKinds(numeric: seq<string>, categorical: seq<string>)

  /** What `get_group_data` returns: one group's target values, or the
      dictionary of every group's values (kept in group order). */
  datatype GroupQuery = OneGroup(values: seq<Cell>) | AllGroups(entries: seq<(Cell, seq<Cell>)>)

  /** The smallest number of rows `validate_data` accepts. */
  const MinRows: nat := 10

  /** `validate_data` on the loaded table, if any. */
  function ValidateTable(data: Option<Table>): (v: Validation)
    ensures v.ok <==> data.Some? && data.value.rows >= MinRows
                      && forall c | c in data.value.columns :: NoMissing(c.cells)
    ensures data.None? ==> v.message == NoData
    ensures data.Some? && data.value.rows < MinRows ==> v.message == TooFewRows
    ensures data.Some? && data.value.rows >= MinRows && !v.ok ==>
              v.message == HasMissing(MissingCount(data.value.columns))
    ensures v.message.HasMissing? ==> v.message.count > 0
  {
    if data.None? then Validation(false, NoData)
    else if data.value.rows < MinRows then Validation(false, TooFewRows)
    else
      var missing := MissingCount(data.value.columns);
      MissingCountZero(data.value.columns);
      if missing > 0 then Validation(false, HasMissing(missing))
      else Validation(true, Complete)
  }

  /** `get_column_types` on the loaded table, if any. */
  function ColumnKindsOf(data: Option<Table>): (r: ColumnKinds)
    requires data.Some? ==> WellFormed(data.value)
    ensures data.None? ==> r.numeric == [] && r.categorical == []
    ensures data.Some? ==> forall n :: n in r.numeric <==>
              exists c | c in data.value.columns :: c.name == n && IsNumeric(c.dtype)
    ensures data.Some? ==> forall n :: n in r.categorical <==>
              exists c | c in data.value.columns :: c.name == n && IsCategorical(c.dtype)
    ensures forall n :: !(n in r.numeric && n in r.categorical)
  {
    match data
    case None => ColumnKinds([], [])
    case Some(t) =>
      var r := ColumnKinds(NumericNames(t.columns), CategoricalNames(t.columns));
      assert forall n :: !(n in r.numeric && n in r.categorical) by {
        forall n ensures !(n in r.numeric && n in r.categorical) {
          ColumnKindsDisjoint(t, n);
        }
      }
      r
  }

  /** The answer to a query for the group `asked` (all groups when `None`):
      an unconfigured processor fails; without a group list only a single
      group can be asked for; no column is read for an empty group list;
      otherwise a missing group or target column fails, and the answer is
      the asked group's target values, or one entry per listed group, in list
      order, holding that group's target values. */
  ghost predicate Answers(data: Option<Table>, groupCol: Option<string>, targetCol: Option<string>,
                          groups: Option<seq<Cell>>, asked: Option<Cell>, r: Result<GroupQuery, DataError>)
  {
    if data.None? || groupCol.None? || targetCol.None? then r == Err(Unconfigured)
    else if asked.None? && groups.None? then r == Err(GroupsUnset)
    else if asked.None? && |groups.value| == 0 then r == Ok(AllGroups([]))
    else
      var g := FindColumn(data.value.columns, groupCol.value);
      var v := FindColumn(data.value.columns, targetCol.value);
      if g.None? then r == Err(ColumnAbsent(groupCol.value))
      else if v.None? then r == Err(ColumnAbsent(targetCol.value))
      else if |g.value.cells| != |v.value.cells| then r == Err(Unconfigured)
      else if asked.Some? then r == Ok(OneGroup(Select(g.value.cells, v.value.cells, asked.value)))
      else
        && r.Ok? && r.value.AllGroups? && |r.value.entries| == |groups.value|
        && forall i | 0 <= i < |groups.value| ::
             r.value.entries[i] == (groups.value[i], Select(g.value.cells, v.value.cells, groups.value[i]))
  }

  /** `get_group_data(name)` as written: `if group_name:` tests truthiness,
      so a label such as 0 falls through to the all-groups branch. */
  function QueryGroupData(data: Option<Table>, groupCol: Option<string>, targetCol: Option<string>,
                          groups: Option<seq<Cell>>, name: Option<Cell>): (r: Result<GroupQuery, DataError>)
    ensures Answers(data, groupCol, targetCol, groups,
                    if name.Some? && Truthy(name.value) then name else None, r)
    ensures r.Ok? && r.value.OneGroup? ==> name.Some? && Truthy(name.value)
  {
    if data.None? || groupCol.None? || targetCol.None? then Err(Unconfigured)
    else if name.Some? && Truthy(name.value) then
      SelectByName(data.value, groupCol.value, targetCol.value, name.value)
    else if groups.None? then Err(GroupsUnset)
    else AllGroupData(data.value, groupCol.value, targetCol.value, groups.value)
  }

  /** `get_group_data(name)` as evidently intended: any given label selects
      that label's rows. */
  function QueryGroupDataFixed(data: Option<Table>, groupCol: Option<string>, targetCol: Option<string>,
                               groups: Option<seq<Cell>>, name: Option<Cell>): (r: Result<GroupQuery, DataError>)
    ensures Answers(data, groupCol, targetCol, groups, name, r)
    ensures data.Some? && groupCol.Some? && targetCol.Some? && name.Some? && r.Ok? ==>
              var g := FindColumn(data.value.columns, groupCol.value).value;
              var t := FindColumn(data.value.columns, targetCol.value).value;
              r.value == OneGroup(Select(g.cells, t.cells, name.value))
  {
    if data.None? || groupCol.None? || targetCol.None? then Err(Unconfigured)
    else if name.Some? then SelectByName(data.value, groupCol.value, targetCol.value, name.value)
    else if groups.None? then Err(GroupsUnset)
    else AllGroupData(data.value, groupCol.value, targetCol.value, groups.value)
  }

  /** `df[df[group_col] == name][target_col]`: the group column is looked up
      first, then the target column. A ragged table (which `pd.read_csv`
      never produces) is reported as unconfigured. */
  function SelectByName(t: Table, groupCol: string, targetCol: string, name: Cell): Result<GroupQuery, DataError>
  {
    var g := FindColumn(t.columns, groupCol);
    var v := FindColumn(t.columns, targetCol);
    if g.None? then Err(ColumnAbsent(groupCol))
    else if v.None? then Err(ColumnAbsent(targetCol))
    else if |g.value.cells| != |v.value.cells| then Err(Unconfigured)
    else Ok(OneGroup(Select(g.value.cells, v.value.cells, name)))
  }

  /** The dictionary comprehension over `self.groups`: no column is touched
      when the list is empty. */
  function AllGroupData(t: Table, groupCol: string, targetCol: string, groups: seq<Cell>): Result<GroupQuery, DataError>
  {
    var g := FindColumn(t.columns, groupCol);
    var v := FindColumn(t.columns, targetCol);
    if |groups| == 0 then Ok(AllGroups([]))
    else if g.None? then Err(ColumnAbsent(groupCol))
    else if v.None? then Err(ColumnAbsent(targetCol))
    else if |g.value.cells| != |v.value.cells| then Err(Unconfigured)
    else Ok(AllGroups(seq(|groups|, i requires 0 <= i < |groups| =>
                            (groups[i], Select(g.value.cells, v.value.cells, groups[i])))))
  }

  /** What the analysis needs of the processor's state: a well-formed table,
      both columns present, an accepted target column without missing
      values, an orderable group column, and its sorted distinct values as
      the labels. */
  predicate ReadyState(t: Table, groupCol: string, targetCol: string, labels: seq<Cell>)
  {
    && WellFormed(t)
    && FindColumn(t.columns, groupCol).Some?
    && FindColumn(t.columns, targetCol).Some?
    && IsAcceptedTarget(FindColumn(t.columns, targetCol).value.dtype)
    && NoMissing(FindColumn(t.columns, targetCol).value.cells)
    && Orderable(FindColumn(t.columns, groupCol).value.cells)
    && labels == SortedDistinct(FindColumn(t.columns, groupCol).value.cells)
  }

  /** A column has one cell per row. */
  lemma ColumnLength(t: Table, c: Column)
    requires WellFormed(t) && c in t.columns
    ensures |c.cells| == t.rows
  {
    var i :| 0 <= i < |t.columns| && t.columns[i] == c;
  }

  /** The labels with each group's target values, in label order. */
  datatype GroupData = GroupData(labels: seq<Cell>, samples: seq<seq<real>>)

  predicate WellGrouped(gd: GroupData)
  {
    && |gd.samples| == |gd.labels|
    && Distinct(gd.labels)
    && forall i | 0 <= i < |gd.samples| :: |gd.samples[i]| > 0
  }

  /** The groups' values one group after another. */
  function Flatten(ss: seq<seq<real>>): seq<real>
  {
    if |ss| == 0 then [] else ss[0] + Flatten(ss[1..])
  }

  /** One group's target values as numbers, through the corrected query. */
  function GroupValuesOf(t: Table, groupCol: string, targetCol: string, labels: seq<Cell>,
                         group: Cell): (r: seq<real>)
    requires ReadyState(t, groupCol, targetCol, labels)
    ensures |r| == Occurrences(FindColumn(t.columns, groupCol).value.cells, group)
    ensures group in labels ==> |r| > 0
  {
    var g := FindColumn(t.columns, groupCol).value;
    var v := FindColumn(t.columns, targetCol).value;
    ColumnLength(t, g);
    ColumnLength(t, v);
    var cells := SelectByName(t, groupCol, targetCol, group).value.values;
    assert forall c | c in v.cells :: c.Num? by {
      forall c | c in v.cells ensures c.Num? {
        var j :| 0 <= j < |v.cells| && v.cells[j] == c;
      }
    }
    assert forall k | 0 <= k < |cells| :: cells[k].Num? by {
      forall k | 0 <= k < |cells| ensures cells[k].Num? {
        assert cells[k] in cells;
      }
    }
    assert group in labels ==> |cells| > 0 by {
      if group in labels {
        EveryLabelHasRows(g.cells, group);
      }
    }
    seq(|cells|, k requires 0 <= k < |cells| => cells[k].value)
  }

  function SamplesFor(t: Table, groupCol: string, targetCol: string, labels: seq<Cell>,
                      ls: seq<Cell>): (r: seq<seq<real>>)
    requires ReadyState(t, groupCol, targetCol, labels)
    ensures |r| == |ls|
  {
    seq(|ls|, i requires 0 <= i < |ls| => GroupValuesOf(t, groupCol, targetCol, labels, ls[i]))
  }

  lemma {:induction false} SamplesForSize(t: Table, groupCol: string, targetCol: string,
                                          labels: seq<Cell>, ls: seq<Cell>)
    requires ReadyState(t, groupCol, targetCol, labels)
    ensures var g := FindColumn(t.columns, groupCol).value.cells;
            var v := FindColumn(t.columns, targetCol).value.cells;
            |g| == |v| && |Flatten(SamplesFor(t, groupCol, targetCol, labels, ls))| == |Concat(ls, g, v)|
  {
    ColumnLength(t, FindColumn(t.columns, groupCol).value);
    ColumnLength(t, FindColumn(t.columns, targetCol).value);
    if |ls| > 0 {
      assert SamplesFor(t, groupCol, targetCol, labels, ls)[1..] == SamplesFor(t, groupCol, targetCol, labels, ls[1..]);
      SamplesForSize(t, groupCol, targetCol, labels, ls[1..]);
    }
  }

  /** The group data of a ready state: distinct labels, a non-empty sample
      per label, and as many values in all as the table has rows. */
  function GroupDataOf(t: Table, groupCol: string, targetCol: string, labels: seq<Cell>): (gd: GroupData)
    requires ReadyState(t, groupCol, targetCol, labels)
    ensures gd.labels == labels && WellGrouped(gd)
    ensures |Flatten(gd.samples)| == t.rows
  {
    var g := FindColumn(t.columns, groupCol).value;
    var v := FindColumn(t.columns, targetCol).value;
    ColumnLength(t, g);
    ColumnLength(t, v);
    StrictlyIncreasingIsDistinct(labels);
    SamplesForSize(t, groupCol, targetCol, labels, labels);
    PartitionCoversTarget(g.cells, v.cells);
    GroupData(labels, SamplesFor(t, groupCol, targetCol, labels, labels))
  }

  /** The group data is what `get_group_data()` without a name returns: the
      dictionary over the labels in order, each entry the label's target
      values. */
  lemma GroupDataIsQueryResult(t: Table, groupCol: string, targetCol: string, labels: seq<Cell>)
    requires ReadyState(t, groupCol, targetCol, labels) && |labels| > 0
    ensures var q := QueryGroupData(Some(t), Some(groupCol), Some(targetCol), Some(labels), None);
            var gd := GroupDataOf(t, groupCol, targetCol, labels);
            && q.Ok? && q.value.AllGroups? && |q.value.entries| == |labels|
            && forall i | 0 <= i < |labels| ::
                 && q.value.entries[i].0 == labels[i]
                 && |q.value.entries[i].1| == |gd.samples[i]|
                 && forall k | 0 <= k < |gd.samples[i]| :: q.value.entries[i].1[k] == Num(gd.samples[i][k])
  {
    var g := FindColumn(t.columns, groupCol).value;
    var v := FindColumn(t.columns, targetCol).value;
    ColumnLength(t, g);
    ColumnLength(t, v);
    var q := QueryGroupData(Some(t), Some(groupCol), Some(targetCol), Some(labels), None);
    var gd := GroupDataOf(t, groupCol, targetCol, labels);
    forall i | 0 <= i < |labels|
      ensures |q.value.entries[i].1| == |gd.samples[i]|
      ensures forall k | 0 <= k < |gd.samples[i]| :: q.value.entries[i].1[k] == Num(gd.samples[i][k])
    {
      var cells := Select(g.cells, v.cells, labels[i]);
      assert q.value.entries[i].1 == cells;
      assert gd.samples[i] == GroupValuesOf(t, groupCol, targetCol, labels, labels[i]);
      forall k | 0 <= k < |cells| ensures cells[k].Num? {
        assert cells[k] in v.cells;
      }
    }
  }

  /** Every row's group value is one of the sorted distinct labels, so the
      per-label target data covers the target column exactly once. */
  lemma PartitionCoversTarget(g: seq<Cell>, t: seq<Cell>)
    requires |g| == |t| && Orderable(g)
    ensures multiset(Concat(SortedDistinct(g), g, t)) == multiset(t)
    ensures |Concat(SortedDistinct(g), g, t)| == |t|
  {
    var groups := SortedDistinct(g);
    StrictlyIncreasingIsDistinct(groups);
    assert forall k | 0 <= k < |g| :: g[k] in groups && !g[k].Missing?;
    PartitionIsPermutation(groups, g, t);
    assert |multiset(Concat(groups, g, t))| == |multiset(t)|;
  }

  /** Every label of a group column has at least one row. */
  lemma EveryLabelHasRows(g: seq<Cell>, group: Cell)
    requires Orderable(g) && group in SortedDistinct(g)
    ensures Occurrences(g, group) >= 1
  {
    OccurringLabelHasRows(g, group);
  }

  /** With a numeric group column holding 0 and 1, asking for group 0 returns
      the dictionary of all groups instead of group 0's values. */
  lemma FalsyLabelSelectsAllGroups()
    ensures
      var t := Table(2, [Column("group", Int64, [Num(0.0), Num(1.0)]),
                         Column("value", Float64, [Num(1.5), Num(2.5)])]);
      var groups := Some([Num(0.0), Num(1.0)]);
      && QueryGroupData(Some(t), Some("group"), Some("value"), groups, Some(Num(0.0)))
         == Ok(AllGroups([(Num(0.0), [Num(1.5)]), (Num(1.0), [Num(2.5)])]))
      && QueryGroupDataFixed(Some(t), Some("group"), Some("value"), groups, Some(Num(0.0)))
         == Ok(OneGroup([Num(1.5)]))
  {
    var g := [Num(0.0), Num(1.0)];
    var v := [Num(1.5), Num(2.5)];
    assert g[..1] == [Num(0.0)] && v[..1] == [Num(1.5)];
    assert Select(g, v, Num(0.0)) == [Num(1.5)];
    assert Select(g, v, Num(1.0)) == [Num(2.5)];
    var t := Table(2, [Column("group", Int64, g), Column("value", Float64, v)]);
    assert FindColumn(t.columns, "group") == Some(t.columns[0]);
    assert t.columns[1..] == [Column("value", Float64, v)];
    assert FindColumn(t.columns, "value") == Some(t.columns[1]);
    var labels := [Num(0.0), Num(1.0)];
    var entries := seq(|labels|, i requires 0 <= i < |labels| => (labels[i], Select(g, v, labels[i])));
    assert entries == [(Num(0.0), [Num(1.5)]), (Num(1.0), [Num(2.5)])];
    assert AllGroupData(t, "group", "value", labels) == Ok(AllGroups(entries));
  }

  class DataProcessor {
    var data: Option<Table>
    var groupCol: Option<string>
    var targetCol: Option<string>
    var groups: Option<seq<Cell>>

    ghost predicate Valid()
      reads this
    {
      data.Some? ==> WellFormed(data.value)
    }

    /** The state in which the application runs the analysis: a table is
        loaded, `set_group_and_target` succeeded on it, and the target column
        has no missing value (the application only goes on after
        `validate_data` accepted the table). */
    predicate Ready()
      reads this
    {
      && data.Some? && groupCol.Some? && targetCol.Some? && groups.Some?
      && ReadyState(data.value, groupCol.value, targetCol.value, groups.value)
    }

    constructor ()
      ensures Valid()
      ensures data == None && groupCol == None && targetCol == None && groups == None
    {
      data, groupCol, targetCol, groups := None, None, None, None;
    }

    /** `load_data`: `parsed` is what `pd.read_csv` produced (`None` when it
        raised). The table is stored before the emptiness check, so an empty
        table is kept even though the call fails. Nothing else is reset. */
    method LoadData(parsed: Option<Table>) returns (r: Result<Table, DataError>)
      requires Valid()
      requires parsed.Some? ==> WellFormed(parsed.value)
      modifies this`data
      ensures Valid()
      ensures parsed.None? ==> data == old(data) && r == Err(ParseFailure)
      ensures parsed.Some? ==> data == parsed
      ensures parsed.Some? ==> r == if IsEmpty(parsed.value) then Err(EmptyTable) else Ok(parsed.value)
    {
      if parsed.None? {
        return Err(ParseFailure);
      }
      data := parsed;
      if IsEmpty(parsed.value) {
        return Err(EmptyTable);
      }
      return Ok(parsed.value);
    }

    /** `validate_data`. */
    function Validate(): (v: Validation)
      reads this
      ensures v.ok <==> data.Some? && data.value.rows >= MinRows
                        && forall c | c in data.value.columns :: NoMissing(c.cells)
      ensures data.None? ==> v.message == NoData
      ensures data.Some? && data.value.rows < MinRows ==> v.message == TooFewRows
      ensures data.Some? && data.value.rows >= MinRows && !v.ok ==>
                v.message == HasMissing(MissingCount(data.value.columns))
    {
      ValidateTable(data)
    }

    /** `get_column_types`. */
    function ColumnTypes(): (r: ColumnKinds)
      requires Valid()
      reads this
      ensures data.None? ==> r.numeric == [] && r.categorical == []
      ensures forall n :: !(n in r.numeric && n in r.categorical)
    {
      ColumnKindsOf(data)
    }

    /** `set_group_and_target`. The three checks leave every field alone; past
        them both column names are stored, then the sorted labels (unless
        `sorted` raises), and only then is the target dtype checked. */
    method SetGroupAndTarget(groupName: string, targetName: string) returns (r: Outcome<DataError>)
      requires Valid()
      modifies this`groupCol, this`targetCol, this`groups
      ensures Valid()
      ensures data.None? ==> r == Fail(NotLoaded)
      ensures data.Some? && FindColumn(data.value.columns, groupName).None? ==>
                r == Fail(ColumnAbsent(groupName))
      ensures data.Some? && FindColumn(data.value.columns, groupName).Some?
              && FindColumn(data.value.columns, targetName).None? ==>
                r == Fail(ColumnAbsent(targetName))
      ensures r.Fail? && (r.error.NotLoaded? || r.error.ColumnAbsent?) ==>
                groupCol == old(groupCol) && targetCol == old(targetCol) && groups == old(groups)
      ensures data.Some? && FindColumn(data.value.columns, groupName).Some?
              && FindColumn(data.value.columns, targetName).Some? ==>
                var g := FindColumn(data.value.columns, groupName).value;
                var t := FindColumn(data.value.columns, targetName).value;
                && groupCol == Some(groupName) && targetCol == Some(targetName)
                && (!Orderable(g.cells) ==> r == Fail(Unorderable) && groups == old(groups))
                && (Orderable(g.cells) ==> groups == Some(SortedDistinct(g.cells)))
                && (Orderable(g.cells) ==>
                      r == if IsAcceptedTarget(t.dtype) then Pass else Fail(NotNumeric(targetName)))
      ensures r == Pass ==> groups.Some? && StrictlyIncreasing(groups.value)
      ensures r == Pass && NoMissing(FindColumn(data.value.columns, targetName).value.cells) ==> Ready()
    {
      if data.None? {
        return Fail(NotLoaded);
      }
      var g := FindColumn(data.value.columns, groupName);
      if g.None? {
        return Fail(ColumnAbsent(groupName));
      }
      var t := FindColumn(data.value.columns, targetName);
      if t.None? {
        return Fail(ColumnAbsent(targetName));
      }
      groupCol := Some(groupName);
      targetCol := Some(targetName);
      if !Orderable(g.value.cells) {
        return Fail(Unorderable);
      }
      groups := Some(SortedDistinct(g.value.cells));
      if !IsAcceptedTarget(t.value.dtype) {
        return Fail(NotNumeric(targetName));
      }
      return Pass;
    }

    /** `get_group_data(name)`, as written. */
    function GetGroupData(name: Option<Cell>): (r: Result<GroupQuery, DataError>)
      reads this
      ensures Answers(data, groupCol, targetCol, groups,
                      if name.Some? && Truthy(name.value) then name else None, r)
      ensures r.Ok? && r.value.OneGroup? ==> name.Some? && Truthy(name.value)
    {
      QueryGroupData(data, groupCol, targetCol, groups, name)
    }

    /** The labels with every group's target values, taken through the
        corrected query. */
    function Groups(): (gd: GroupData)
      requires Ready()
      reads this
      ensures gd.labels == groups.value && WellGrouped(gd)
      ensures |Flatten(gd.samples)| == data.value.rows
    {
      GroupDataOf(data.value, groupCol.value, targetCol.value, groups.value)
    }
  }
}
