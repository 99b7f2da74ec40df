/**
 * The top level of the merge script: five full-table passes, each assigning one
 * weather column computed by `connect` row by row.
 */
module Merge {
  import opened Outcomes
  import opened Join

  /** One incident row: the columns the join reads, and all other columns, left opaque. */
  datatype Record<A> = Record(key: Incident, rest: A)

  /** A column assigned to the table: a name and one cell per row. */
  datatype Column<V> = Column(name: string, cells: seq<Option<V>>)

  /** The loaded weather grid: three axes (the time axis is loaded but never read) and five fields. */
  datatype Grid<V> = Grid(
    lats: seq<real>, lons: seq<real>, time: seq<real>,
    t2m: Field<V>, tcc: Field<V>, vidgf: Field<V>, sp: Field<V>, v10: Field<V>)

  /**
   * What one `t_set.apply(lambda row: connect(row, field), axis=1)` yields: the
   * connected value of every row, or the fault of the first row that raises.
   */
  function JoinColumn<A, V>(records: seq<Record<A>>, lats: seq<real>, lons: seq<real>, field: Field<V>)
    : (r: Result<seq<Option<V>>>)
    ensures r.Ok? ==> |r.value| == |records|
    decreases |records|
  {
    if |records| == 0 then Ok([])
    else
      match JoinColumn(records[..|records| - 1], lats, lons, field)
      case Err(f) => Err(f)
      case Ok(cells) =>
        match Connect(records[|records| - 1].key, lats, lons, field)
        case Err(f) => Err(f)
        case Ok(c) => Ok(cells + [c])
  }

  /**
   * A pass succeeds exactly when no row raises, and then its k-th cell is what
   * `connect` gives for row k.
   */
  lemma {:induction false} JoinColumnCells<A, V>(records: seq<Record<A>>, lats: seq<real>,
                                                lons: seq<real>, field: Field<V>)
    ensures JoinColumn(records, lats, lons, field).Ok? <==>
      forall k :: 0 <= k < |records| ==> Connect(records[k].key, lats, lons, field).Ok?
    ensures JoinColumn(records, lats, lons, field).Ok? ==>
      forall k :: 0 <= k < |records| ==>
        Connect(records[k].key, lats, lons, field) == Ok(JoinColumn(records, lats, lons, field).value[k])
    decreases |records|
  {
    if |records| > 0 {
      var last := |records| - 1;
      var prefix := records[..last];
      JoinColumnCells(prefix, lats, lons, field);
      assert forall j :: 0 <= j < last ==> records[j] == prefix[j];
    }
  }

  /** A pass that fails reports the fault of the first row that raises. */
  lemma {:induction false} JoinColumnFirstFault<A, V>(records: seq<Record<A>>, lats: seq<real>,
                                                     lons: seq<real>, field: Field<V>)
    requires JoinColumn(records, lats, lons, field).Err?
    ensures exists k ::
      0 <= k < |records| &&
      Connect(records[k].key, lats, lons, field) == Err(JoinColumn(records, lats, lons, field).fault) &&
      forall j :: 0 <= j < k ==> Connect(records[j].key, lats, lons, field).Ok?
    decreases |records|
  {
    var last := |records| - 1;
    var prefix := records[..last];
    assert forall j :: 0 <= j < last ==> records[j] == prefix[j];
    if JoinColumn(prefix, lats, lons, field).Err? {
      JoinColumnFirstFault(prefix, lats, lons, field);
    } else {
      JoinColumnCells(prefix, lats, lons, field);
      assert Connect(records[last].key, lats, lons, field).Err?;
    }
  }

  /** Once a prefix of the rows raises, every longer prefix raises the same fault. */
  lemma {:induction false} JoinColumnFaultSticks<A, V>(records: seq<Record<A>>, lats: seq<real>,
                                                      lons: seq<real>, field: Field<V>, i: nat, j: nat)
    requires i <= j <= |records|
    requires JoinColumn(records[..i], lats, lons, field).Err?
    ensures JoinColumn(records[..j], lats, lons, field) == JoinColumn(records[..i], lats, lons, field)
    decreases j - i
  {
    if i < j {
      JoinColumnFaultSticks(records, lats, lons, field, i, j - 1);
      assert records[..j][..j - 1] == records[..j - 1];
    }
  }

  /** The row-by-row loop of `apply`, stopping at the first row that raises. */
  method ApplyConnect<A, V>(records: seq<Record<A>>, lats: seq<real>, lons: seq<real>, field: Field<V>)
    returns (r: Result<seq<Option<V>>>)
    ensures r == JoinColumn(records, lats, lons, field)
  {
    var cells: seq<Option<V>> := [];
    var k := 0;
    while k < |records|
      invariant 0 <= k <= |records|
      invariant JoinColumn(records[..k], lats, lons, field) == Ok(cells)
    {
      assert records[..k + 1][..k] == records[..k];
      var c := Connect(records[k].key, lats, lons, field);
      if c.Err? {
        JoinColumnFaultSticks(records, lats, lons, field, k + 1, |records|);
        assert records[..|records|] == records;
        return Err(c.fault);
      }
      cells := cells + [c.value];
      k := k + 1;
    }
    assert records[..k] == records;
    return Ok(cells);
  }

  /**
   * In a joined column, row k is missing exactly when row k is outside the coverage
   * window, whichever field was read.
   */
  lemma JoinedCellMissing<A, V>(records: seq<Record<A>>, lats: seq<real>, lons: seq<real>,
                                field: Field<V>, k: nat)
    requires JoinColumn(records, lats, lons, field).Ok? && k < |records|
    ensures JoinColumn(records, lats, lons, field).value[k] == None <==>
      !InCoverage(records[k].key.iyear, records[k].key.imonth)
  {
    JoinColumnCells(records, lats, lons, field);
    assert Connect(records[k].key, lats, lons, field) == Ok(JoinColumn(records, lats, lons, field).value[k]);
  }

  /**
   * Two weather columns joined over the same rows are missing in the same rows:
   * a row is null in all weather columns or in none.
   */
  lemma MissingInAllOrNone<A, V>(records: seq<Record<A>>, lats: seq<real>, lons: seq<real>,
                                 f: Field<V>, g: Field<V>, k: nat)
    requires JoinColumn(records, lats, lons, f).Ok? && JoinColumn(records, lats, lons, g).Ok?
    requires k < |records|
    ensures JoinColumn(records, lats, lons, f).value[k].None? <==>
      JoinColumn(records, lats, lons, g).value[k].None?
  {
    JoinedCellMissing(records, lats, lons, f, k);
    JoinedCellMissing(records, lats, lons, g, k);
  }

  /** The assigned columns part-way through the script, and the fault that stopped it, if any. */
  datatype Run<V> = Run(cols: seq<Column<V>>, stopped: Option<Fault>)

  /** One top-level `t_set[name] = t_set.apply(...)` line; nothing runs after a fault. */
  function Pass<A, V>(run: Run<V>, name: string, records: seq<Record<A>>, grid: Grid<V>, field: Field<V>)
    : (r: Run<V>)
    ensures run.stopped.Some? ==> r == run
    ensures run.stopped.None? && JoinColumn(records, grid.lats, grid.lons, field).Ok? ==>
      r == Run(run.cols + [Column(name, JoinColumn(records, grid.lats, grid.lons, field).value)], None)
    ensures run.stopped.None? && JoinColumn(records, grid.lats, grid.lons, field).Err? ==>
      r == Run(run.cols, Some(JoinColumn(records, grid.lats, grid.lons, field).fault))
  {
    if run.stopped.Some? then run
    else
      match JoinColumn(records, grid.lats, grid.lons, field)
      case Err(f) => Run(run.cols, Some(f))
      case Ok(cells) => Run(run.cols + [Column(name, cells)], None)
  }

  /** The five passes of the script, in source order, starting from the columns `cols`. */
  function MergeRun<A, V>(cols: seq<Column<V>>, records: seq<Record<A>>, grid: Grid<V>): (r: Run<V>)
    ensures |cols| <= |r.cols| <= |cols| + 5 && r.cols[..|cols|] == cols
    ensures r.stopped.None? <==> |r.cols| == |cols| + 5
  {
    var r1 := Pass(Run(cols, None), "t2m", records, grid, grid.t2m);
    var r2 := Pass(r1, "tcc", records, grid, grid.tcc);
    var r3 := Pass(r2, "vidgf", records, grid, grid.vidgf);
    var r4 := Pass(r3, "sp", records, grid, grid.sp);
    Pass(r4, "v10", records, grid, grid.v10)
  }

  /**
   * A run that completes appends exactly the five joined columns, in order, after
   * the existing ones, and every pass succeeded.
   */
  lemma MergeRunCompletes<A, V>(cols: seq<Column<V>>, records: seq<Record<A>>, grid: Grid<V>)
    requires MergeRun(cols, records, grid).stopped.None?
    ensures JoinColumn(records, grid.lats, grid.lons, grid.t2m).Ok? &&
      JoinColumn(records, grid.lats, grid.lons, grid.tcc).Ok? &&
      JoinColumn(records, grid.lats, grid.lons, grid.vidgf).Ok? &&
      JoinColumn(records, grid.lats, grid.lons, grid.sp).Ok? &&
      JoinColumn(records, grid.lats, grid.lons, grid.v10).Ok?
    ensures MergeRun(cols, records, grid).cols == cols + [
      Column("t2m", JoinColumn(records, grid.lats, grid.lons, grid.t2m).value),
      Column("tcc", JoinColumn(records, grid.lats, grid.lons, grid.tcc).value),
      Column("vidgf", JoinColumn(records, grid.lats, grid.lons, grid.vidgf).value),
      Column("sp", JoinColumn(records, grid.lats, grid.lons, grid.sp).value),
      Column("v10", JoinColumn(records, grid.lats, grid.lons, grid.v10).value)]
  {
  }

  /**
   * A run that stops keeps the existing columns in front and appends fewer than
   * five: exactly the joined columns of the passes before the first one that raised,
   * and it records that pass's fault.
   */
  lemma MergeRunStops<A, V>(cols: seq<Column<V>>, records: seq<Record<A>>, grid: Grid<V>)
    requires MergeRun(cols, records, grid).stopped.Some?
    ensures var r := MergeRun(cols, records, grid);
      |cols| <= |r.cols| < |cols| + 5 && r.cols[..|cols|] == cols
    ensures var r := MergeRun(cols, records, grid);
      var j1 := JoinColumn(records, grid.lats, grid.lons, grid.t2m);
      var j2 := JoinColumn(records, grid.lats, grid.lons, grid.tcc);
      var j3 := JoinColumn(records, grid.lats, grid.lons, grid.vidgf);
      var j4 := JoinColumn(records, grid.lats, grid.lons, grid.sp);
      var j5 := JoinColumn(records, grid.lats, grid.lons, grid.v10);
      if j1.Err? then r == Run(cols, Some(j1.fault))
      else if j2.Err? then r == Run(cols + [Column("t2m", j1.value)], Some(j2.fault))
      else if j3.Err? then
        r == Run(cols + [Column("t2m", j1.value), Column("tcc", j2.value)], Some(j3.fault))
      else if j4.Err? then
        r == Run(cols + [Column("t2m", j1.value), Column("tcc", j2.value), Column("vidgf", j3.value)],
                 Some(j4.fault))
      else
        j5.Err? &&
        r == Run(cols + [Column("t2m", j1.value), Column("tcc", j2.value), Column("vidgf", j3.value),
                         Column("sp", j4.value)], Some(j5.fault))
  {
  }

  /** The incident table, updated in place by the merge. */
  class Table<A, V> {
    /** The rows as loaded; the join never changes them. */
    var records: seq<Record<A>>
    /** The columns assigned since loading, in order. */
    var added: seq<Column<V>>

    ghost predicate Valid()
      reads this
    {
      forall c :: c in added ==> |c.cells| == |records|
    }

    constructor (records: seq<Record<A>>)
      ensures Valid() && this.records == records && added == []
    {
      this.records := records;
      added := [];
    }

    /**
     * `t_set[name] = t_set.apply(lambda row: connect(row, field), axis=1)` for a new
     * column name. When a row raises, the assignment never happens and the table is
     * left as it was.
     */
    method AssignJoined(name: string, lats: seq<real>, lons: seq<real>, field: Field<V>)
      returns (r: Result<seq<Option<V>>>)
      requires Valid()
      modifies this
      ensures Valid() && records == old(records)
      ensures r == JoinColumn(records, lats, lons, field)
      ensures added == if r.Ok? then old(added) + [Column(name, r.value)] else old(added)
    {
      r := ApplyConnect(records, lats, lons, field);
      if r.Ok? {
        added := added + [Column(name, r.value)];
      }
    }

    /**
     * The five top-level passes of the script, in order. A pass that raises ends the
     * run with the columns of the earlier passes already in place.
     */
    method MergeWeather(grid: Grid<V>) returns (r: Result<()>)
      requires Valid()
      modifies this
      ensures Valid() && records == old(records)
      ensures var run := MergeRun(old(added), records, grid);
        added == run.cols && (r.Ok? <==> run.stopped.None?) &&
        (r.Err? ==> run.stopped == Some(r.fault))
    {
      ghost var run := Run(added, None);
      var c := AssignJoined("t2m", grid.lats, grid.lons, grid.t2m);
      run := Pass(run, "t2m", records, grid, grid.t2m);
      if c.Err? { return Err(c.fault); }
      c := AssignJoined("tcc", grid.lats, grid.lons, grid.tcc);
      run := Pass(run, "tcc", records, grid, grid.tcc);
      if c.Err? { return Err(c.fault); }
      c := AssignJoined("vidgf", grid.lats, grid.lons, grid.vidgf);
      run := Pass(run, "vidgf", records, grid, grid.vidgf);
      if c.Err? { return Err(c.fault); }
      c := AssignJoined("sp", grid.lats, grid.lons, grid.sp);
      run := Pass(run, "sp", records, grid, grid.sp);
      if c.Err? { return Err(c.fault); }
      c := AssignJoined("v10", grid.lats, grid.lons, grid.v10);
      run := Pass(run, "v10", records, grid, grid.v10);
      if c.Err? { return Err(c.fault); }
      return Ok(());
    }
  }
}
