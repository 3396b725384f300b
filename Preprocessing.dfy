/**
 * Trial preprocessing: the column-wise steps that turn the raw trial table into
 * time- and space-aligned columns. Every step adds or overwrites columns of the
 * trial frame in place; a step that raises leaves the frame as far as it got,
 * which is what the `Run` values below record.
 */
module Preprocessing {
  import opened Wrappers
  import opened Frames
  import opened Sequences

  /** The frame after a step, and the exception the step raised (None when it completed). */
  datatype Run = Run(rows: seq<Row>, err: Option<Error>)

  // ---------------------------------------------------------------------------
  // Derived columns: align_columns_to_value and the dva loop
  // ---------------------------------------------------------------------------

  /**
   * A loop that adds, for every listed column, a column computed from it and a
   * reference column: align_columns_to_value subtracts the reference and names
   * the result "{col}_to_{ref}"; the dva loop of perform_space_alignments
   * divides by px2dva and names the result "{col}_dva".
   */
  datatype Derivation = AlignedTo(ref: string) | InDva

  /** The column every derived cell is computed with. */
  function Reference(d: Derivation): string
  {
    match d
    case AlignedTo(ref) => ref
    case InDva => "px2dva"
  }

  function Operation(d: Derivation): Op
  {
    match d
    case AlignedTo(_) => Minus
    case InDva => Over
  }

  function DerivedName(col: string, d: Derivation): string
  {
    match d
    case AlignedTo(ref) => AlignedName(col, ref)
    case InDva => col + "_dva"
  }

  /** The names of the columns the loop adds. */
  function DerivedNames(cols: seq<string>, d: Derivation): set<string>
  {
    set c | c in cols :: DerivedName(c, d)
  }

  /** No added column overwrites one of the listed columns or the reference column. */
  predicate NoCollision(cols: seq<string>, d: Derivation)
  {
    (forall c, c' :: c in cols && c' in cols ==> DerivedName(c, d) != c') &&
    (forall c :: c in cols ==> DerivedName(c, d) != Reference(d))
  }

  /**
   * One pass of the loop: the derived column becomes `op(col, ref)` (numpy's
   * element-wise arithmetic when the cells are lists; the TypeError fallback of
   * align_columns_to_value computes the same cells row by row). A missing
   * column raises KeyError and a failing cell the cell's error; a run that has
   * already raised goes no further.
   */
  function DeriveStep(run: Run, col: string, d: Derivation): (r: Run)
    ensures |r.rows| == |run.rows|
  {
    if run.err.Some? then run
    else
      match ColumnOp(Operation(d), run.rows, col, Reference(d))
      case Err(e) => Run(run.rows, Some(e))
      case Ok(values) => Run(WithColumn(run.rows, DerivedName(col, d), values), None)
  }

  /** The passes over `cols`, in list order, starting from `run`. */
  function DeriveFrom(run: Run, cols: seq<string>, d: Derivation): (r: Run)
    ensures |r.rows| == |run.rows|
    decreases |cols|
  {
    if run.err.Some? || cols == [] then run
    else DeriveFrom(DeriveStep(run, cols[0], d), cols[1..], d)
  }

  /** The whole loop on a frame: the frame it leaves and the exception it raised. */
  function Derived(rows: seq<Row>, cols: seq<string>, d: Derivation): (r: Run)
    ensures |r.rows| == |rows|
  {
    DeriveFrom(Run(rows, None), cols, d)
  }

  /** align_columns_to_value on a frame. */
  function AlignedToValue(rows: seq<Row>, cols: seq<string>, valueCol: string): (r: Run)
    ensures |r.rows| == |rows|
  {
    Derived(rows, cols, AlignedTo(valueCol))
  }

  lemma DerivedNameInjective(c: string, c': string, d: Derivation)
    requires DerivedName(c, d) == DerivedName(c', d)
    ensures c == c'
  {
    assert |c| == |c'|;
    assert c == DerivedName(c, d)[..|c|];
    assert c' == DerivedName(c', d)[..|c'|];
  }

  /**
   * The row `out` is `r` after the loop over `cols`: every listed column gained
   * its derived cell `op(col, ref)`, and every column of `r` that is not one of
   * the new names kept its value.
   */
  predicate RowDerived(r: Row, out: Row, cols: seq<string>, d: Derivation)
  {
    out.Keys == r.Keys + DerivedNames(cols, d) &&
    (forall c :: c in r && c !in DerivedNames(cols, d) ==> out[c] == r[c]) &&
    (forall c :: c in cols ==>
       c in r && Reference(d) in r && Apply(Operation(d), r[c], r[Reference(d)]) == Ok(out[DerivedName(c, d)]))
  }

  /** What the loop promises of every row of a completed run. */
  lemma {:induction false} DerivedCells(rows: seq<Row>, cols: seq<string>, d: Derivation, i: nat)
    requires Derived(rows, cols, d).err.None?
    requires i < |rows|
    requires NoCollision(cols, d)
    ensures RowDerived(rows[i], Derived(rows, cols, d).rows[i], cols, d)
    decreases |cols|
  {
    if cols == [] {
      assert DerivedNames(cols, d) == {};
    } else {
      var step := DeriveStep(Run(rows, None), cols[0], d);
      assert Derived(rows, cols, d) == DeriveFrom(step, cols[1..], d);
      assert step.err.None?;
      var values := ColumnOp(Operation(d), rows, cols[0], Reference(d)).value;
      assert step.rows[i] == rows[i][DerivedName(cols[0], d) := values[i]];
      DerivedNamesCons(cols, d);
      DerivedCells(step.rows, cols[1..], d, i);
      RowDerivedCons(rows[i], values[i], DeriveFrom(step, cols[1..], d).rows[i], cols, d);
    }
  }

  lemma DerivedNamesCons(cols: seq<string>, d: Derivation)
    requires cols != [] && NoCollision(cols, d)
    ensures NoCollision(cols[1..], d)
    ensures DerivedNames(cols, d) == {DerivedName(cols[0], d)} + DerivedNames(cols[1..], d)
  {
    assert cols == [cols[0]] + cols[1..];
    assert forall c :: c in cols[1..] ==> c in cols;
  }

  /** Adding the first column's cell in front of a row derived over the remaining columns. */
  lemma RowDerivedCons(r: Row, v: Cell, out: Row, cols: seq<string>, d: Derivation)
    requires cols != [] && NoCollision(cols, d)
    requires DerivedNames(cols, d) == {DerivedName(cols[0], d)} + DerivedNames(cols[1..], d)
    requires cols[0] in r && Reference(d) in r && Apply(Operation(d), r[cols[0]], r[Reference(d)]) == Ok(v)
    requires RowDerived(r[DerivedName(cols[0], d) := v], out, cols[1..], d)
    ensures RowDerived(r, out, cols, d)
  {
    var name := DerivedName(cols[0], d);
    assert out.Keys == r.Keys + DerivedNames(cols, d);
    ConsCells(r, v, out, cols, d);
    forall c | c in r && c !in DerivedNames(cols, d)
      ensures out[c] == r[c]
    {
      assert c != name && c !in DerivedNames(cols[1..], d);
      assert out[c] == r[name := v][c];
    }
  }

  lemma ConsCells(r: Row, v: Cell, out: Row, cols: seq<string>, d: Derivation)
    requires cols != [] && NoCollision(cols, d)
    requires cols[0] in r && Reference(d) in r && Apply(Operation(d), r[cols[0]], r[Reference(d)]) == Ok(v)
    requires RowDerived(r[DerivedName(cols[0], d) := v], out, cols[1..], d)
    ensures forall c :: c in cols ==>
              c in r && Reference(d) in r && Apply(Operation(d), r[c], r[Reference(d)]) == Ok(out[DerivedName(c, d)])
  {
    forall c | c in cols
      ensures c in r && Reference(d) in r && Apply(Operation(d), r[c], r[Reference(d)]) == Ok(out[DerivedName(c, d)])
    {
      ConsCell(r, v, out, cols, d, c);
    }
  }

  lemma ConsCell(r: Row, v: Cell, out: Row, cols: seq<string>, d: Derivation, c: string)
    requires c in cols && NoCollision(cols, d)
    requires cols[0] in r && Reference(d) in r && Apply(Operation(d), r[cols[0]], r[Reference(d)]) == Ok(v)
    requires RowDerived(r[DerivedName(cols[0], d) := v], out, cols[1..], d)
    ensures c in r && Reference(d) in r && Apply(Operation(d), r[c], r[Reference(d)]) == Ok(out[DerivedName(c, d)])
  {
    var j :| 0 <= j < |cols| && cols[j] == c;
    if c in cols[1..] {
      ConsCellLater(r, v, out, cols, d, c);
    } else {
      assert j == 0;
      ConsCellFirst(r, v, out, cols, d);
    }
  }

  lemma ConsCellLater(r: Row, v: Cell, out: Row, cols: seq<string>, d: Derivation, c: string)
    requires cols != [] && NoCollision(cols, d) && c in cols[1..]
    requires RowDerived(r[DerivedName(cols[0], d) := v], out, cols[1..], d)
    ensures c in r && Reference(d) in r && DerivedName(c, d) in out
    ensures Apply(Operation(d), r[c], r[Reference(d)]) == Ok(out[DerivedName(c, d)])
  {
    var name := DerivedName(cols[0], d);
    assert c in cols;
    assert c != name && Reference(d) != name;
  }

  lemma ConsCellFirst(r: Row, v: Cell, out: Row, cols: seq<string>, d: Derivation)
    requires cols != [] && NoCollision(cols, d) && cols[0] !in cols[1..]
    requires cols[0] in r && Reference(d) in r && Apply(Operation(d), r[cols[0]], r[Reference(d)]) == Ok(v)
    requires RowDerived(r[DerivedName(cols[0], d) := v], out, cols[1..], d)
    ensures DerivedName(cols[0], d) in out && out[DerivedName(cols[0], d)] == v
  {
    var name := DerivedName(cols[0], d);
    assert name in r[name := v];
    if name in DerivedNames(cols[1..], d) {
      var c' :| c' in cols[1..] && DerivedName(c', d) == name;
      DerivedNameInjective(c', cols[0], d);
      assert false;
    }
  }

  /** Names longer than every listed column and the reference cannot collide with them. */
  lemma ShortNamesDoNotCollide(cols: seq<string>, d: Derivation, bound: nat)
    requires forall c :: c in cols ==> |c| < bound <= |DerivedName(c, d)|
    requires |Reference(d)| < bound
    ensures NoCollision(cols, d)
  {
  }

  /** A name shorter than every added name is not one of them. */
  lemma NotDerived(cols: seq<string>, d: Derivation, name: string, bound: nat)
    requires forall c :: c in cols ==> bound <= |DerivedName(c, d)|
    requires |name| < bound
    ensures name !in DerivedNames(cols, d)
  {
  }

  /**
   * The loop itself, adding one column per pass: align_columns_to_value, and
   * the dva loop of perform_space_alignments.
   */
  method DeriveColumns(df: DataFrame, cols: seq<string>, d: Derivation) returns (err: Option<Error>)
    modifies df`rows
    ensures df.rows == Derived(old(df.rows), cols, d).rows
    ensures err == Derived(old(df.rows), cols, d).err
  {
    for i := 0 to |cols|
      invariant DeriveFrom(Run(df.rows, None), cols[i..], d) == Derived(old(df.rows), cols, d)
    {
      SuffixStep(cols, i);
      var values := ColumnOp(Operation(d), df.rows, cols[i], Reference(d));
      if values.Err? {
        return Some(values.error);
      }
      df.SetColumn(DerivedName(cols[i], d), values.value);
    }
    return None;
  }

  // ---------------------------------------------------------------------------
  // align_columns_to_trial_on_time
  // ---------------------------------------------------------------------------

  /** The columns align_columns_to_trial_on_time aligns to the trial onset, in its order. */
  const TrialOnColumns: seq<string> :=
    ["trialOnTime", "startTime", "flashOnTime", "flashOffTime", "endTime", "trialEndTime", "touchOnTime", "touchOffTime"]

  /** Time the trial may last after its start, in milliseconds. */
  const ResponseWindow: real := 1500.0

  /**
   * `x[0]` on one cell: the first element of an array, the first character of
   * a string; an empty one raises IndexError and a number is not subscriptable.
   */
  function FirstOf(c: Cell): (r: Result<Cell>)
    ensures c.Vec? ==> (r.Ok? <==> c.xs != []) && (r.Ok? ==> r.value == Num(c.xs[0]))
    ensures c.Num? ==> r == Err(TypeError)
    ensures r.Ok? ==> !r.value.Vec?
  {
    match c
    case Vec(xs) => if xs == [] then Err(IndexError) else Ok(Num(xs[0]))
    case Text(s) => if s == [] then Err(IndexError) else Ok(Text([s[0]]))
    case Num(_) => Err(TypeError)
  }

  /** `[rows[x][col][0] for x in index]`, row by row. */
  function FirstCells(rows: seq<Row>, col: string): (r: Result<seq<Cell>>)
    ensures r.Ok? ==> |r.value| == |rows| && HasColumn(rows, col)
    ensures r.Ok? ==> forall i :: 0 <= i < |rows| ==> FirstOf(rows[i][col]) == Ok(r.value[i])
    ensures HasColumn(rows, col) ==> (r.Err? <==> exists i :: 0 <= i < |rows| && FirstOf(rows[i][col]).Err?)
  {
    if rows == [] then Ok([])
    else
      var n := |rows| - 1;
      match FirstCells(rows[..n], col)
      case Err(e) => Err(e)
      case Ok(front) =>
        if col !in rows[n] then Err(KeyError(col))
        else
          match FirstOf(rows[n][col])
          case Err(e) => Err(e)
          case Ok(c) => Ok(front + [c])
  }

  /**
   * The first half of align_columns_to_trial_on_time: trialOnTime is each
   * row's first animation timestamp, flashOnTime and flashOffTime are shifted
   * by startTime (the recorded flash times count from the start), and
   * trialEndTime is startTime + 1500.
   */
  function TrialTimesAdded(rows: seq<Row>): (r: Run)
    ensures |r.rows| == |rows|
  {
    match FirstCells(rows, "animation_timestamps")
    case Err(e) => Run(rows, Some(e))
    case Ok(onsets) =>
      var withOnset := WithColumn(rows, "trialOnTime", onsets);
      match ColumnOp(Plus, withOnset, "flashOnTime", "startTime")
      case Err(e) => Run(withOnset, Some(e))
      case Ok(flashOn) =>
        var shiftedOn := WithColumn(withOnset, "flashOnTime", flashOn);
        match ColumnOp(Plus, shiftedOn, "flashOffTime", "startTime")
        case Err(e) => Run(shiftedOn, Some(e))
        case Ok(flashOff) =>
          var shifted := WithColumn(shiftedOn, "flashOffTime", flashOff);
          match ColumnWith(Plus, shifted, "startTime", Repeat(Num(ResponseWindow), |shifted|))
          case Err(e) => Run(shifted, Some(e))
          case Ok(ends) => Run(WithColumn(shifted, "trialEndTime", ends), None)
  }

  /** align_columns_to_trial_on_time: the new time columns, then the eight time columns aligned to trialOnTime. */
  function AlignedToTrialOnTime(rows: seq<Row>): (r: Run)
    ensures |r.rows| == |rows|
  {
    var added := TrialTimesAdded(rows);
    if added.err.Some? then added
    else AlignedToValue(added.rows, TrialOnColumns, "trialOnTime")
  }

  method AlignColumnsToTrialOnTime(df: DataFrame) returns (err: Option<Error>)
    modifies df`rows
    ensures df.rows == AlignedToTrialOnTime(old(df.rows)).rows
    ensures err == AlignedToTrialOnTime(old(df.rows)).err
  {
    var onsets := FirstCells(df.rows, "animation_timestamps");
    if onsets.Err? {
      return Some(onsets.error);
    }
    df.SetColumn("trialOnTime", onsets.value);
    var flashOn := ColumnOp(Plus, df.rows, "flashOnTime", "startTime");
    if flashOn.Err? {
      return Some(flashOn.error);
    }
    df.SetColumn("flashOnTime", flashOn.value);
    var flashOff := ColumnOp(Plus, df.rows, "flashOffTime", "startTime");
    if flashOff.Err? {
      return Some(flashOff.error);
    }
    df.SetColumn("flashOffTime", flashOff.value);
    var ends := ColumnWith(Plus, df.rows, "startTime", Repeat(Num(ResponseWindow), |df.rows|));
    if ends.Err? {
      return Some(ends.error);
    }
    df.SetColumn("trialEndTime", ends.value);
    assert df.rows == TrialTimesAdded(old(df.rows)).rows;
    err := DeriveColumns(df, TrialOnColumns, AlignedTo("trialOnTime"));
  }

  /** The eight time columns never collide with the names aligned to trialOnTime. */
  lemma TrialOnColumnsDoNotCollide()
    ensures NoCollision(TrialOnColumns, AlignedTo("trialOnTime"))
    ensures forall c :: c in TrialOnColumns ==> c !in DerivedNames(TrialOnColumns, AlignedTo("trialOnTime"))
  {
    ShortNamesDoNotCollide(TrialOnColumns, AlignedTo("trialOnTime"), 13);
  }

  /** The cells the first half of align_columns_to_trial_on_time puts in each row. */
  lemma TrialTimesAddedRow(rows: seq<Row>, i: nat)
    requires TrialTimesAdded(rows).err.None?
    requires i < |rows|
    ensures var w := TrialTimesAdded(rows).rows[i];
      "animation_timestamps" in rows[i] && "startTime" in rows[i] && "flashOnTime" in rows[i] &&
      "trialOnTime" in w && FirstOf(rows[i]["animation_timestamps"]) == Ok(w["trialOnTime"]) &&
      "flashOnTime" in w && Apply(Plus, rows[i]["flashOnTime"], rows[i]["startTime"]) == Ok(w["flashOnTime"]) &&
      "startTime" in w && w["startTime"] == rows[i]["startTime"] &&
      "trialEndTime" in w && Apply(Plus, rows[i]["startTime"], Num(ResponseWindow)) == Ok(w["trialEndTime"]) &&
      (rows[i]["startTime"].Num? ==> w["trialEndTime"] == Num(rows[i]["startTime"].x + ResponseWindow))
  {
    var onsets := FirstCells(rows, "animation_timestamps").value;
    var withOnset := WithColumn(rows, "trialOnTime", onsets);
    var flashOn := ColumnOp(Plus, withOnset, "flashOnTime", "startTime").value;
    var shiftedOn := WithColumn(withOnset, "flashOnTime", flashOn);
    var flashOff := ColumnOp(Plus, shiftedOn, "flashOffTime", "startTime").value;
    var shifted := WithColumn(shiftedOn, "flashOffTime", flashOff);
    var ends := ColumnWith(Plus, shifted, "startTime", Repeat(Num(ResponseWindow), |shifted|)).value;
    var w := TrialTimesAdded(rows).rows[i];
    assert w == rows[i]["trialOnTime" := onsets[i]]["flashOnTime" := flashOn[i]]["flashOffTime" := flashOff[i]]["trialEndTime" := ends[i]];
  }

  /** The aligned cells of one row, from the cells the first half put there. */
  lemma TrialOnAlignedRow(w: Row, out: Row)
    requires RowDerived(w, out, TrialOnColumns, AlignedTo("trialOnTime"))
    requires "trialOnTime" in w && !w["trialOnTime"].Vec?
    ensures "trialOnTime" in out && out["trialOnTime"] == w["trialOnTime"] && out["trialOnTime"].Num?
    ensures "flashOnTime" in out && out["flashOnTime"] == w["flashOnTime"]
    ensures AlignedName("trialOnTime", "trialOnTime") in out && out[AlignedName("trialOnTime", "trialOnTime")] == Num(0.0)
    ensures "startTime" in w && "trialEndTime" in w && w["startTime"].Num? && w["trialEndTime"] == Num(w["startTime"].x + ResponseWindow) ==>
              AlignedName("trialEndTime", "trialOnTime") in out && AlignedName("startTime", "trialOnTime") in out &&
              out[AlignedName("trialEndTime", "trialOnTime")].Num? && out[AlignedName("startTime", "trialOnTime")].Num? &&
              out[AlignedName("trialEndTime", "trialOnTime")].x - out[AlignedName("startTime", "trialOnTime")].x == ResponseWindow
  {
    TrialOnColumnsDoNotCollide();
    assert "trialOnTime" in TrialOnColumns && "flashOnTime" in TrialOnColumns;
    assert "trialEndTime" in TrialOnColumns && "startTime" in TrialOnColumns;
  }

  /** The aligned row of a completed run, with the row the first half left before the alignment. */
  lemma TrialOnTimeRows(rows: seq<Row>, i: nat)
    requires AlignedToTrialOnTime(rows).err.None?
    requires i < |rows|
    ensures TrialTimesAdded(rows).err.None?
    ensures RowDerived(TrialTimesAdded(rows).rows[i], AlignedToTrialOnTime(rows).rows[i], TrialOnColumns, AlignedTo("trialOnTime"))
  {
    TrialOnColumnsDoNotCollide();
    DerivedCells(TrialTimesAdded(rows).rows, TrialOnColumns, AlignedTo("trialOnTime"), i);
  }

  /**
   * What a completed align_columns_to_trial_on_time leaves in every row: the
   * onset is the first animation timestamp and sits at 0 on its own axis, and
   * the flash onset is shifted by the start time.
   */
  lemma TrialOnTimeAlignment(rows: seq<Row>, i: nat)
    requires AlignedToTrialOnTime(rows).err.None?
    requires i < |rows|
    ensures var out := AlignedToTrialOnTime(rows).rows[i];
      "animation_timestamps" in rows[i] && "trialOnTime" in out &&
      FirstOf(rows[i]["animation_timestamps"]) == Ok(out["trialOnTime"]) && out["trialOnTime"].Num? &&
      AlignedName("trialOnTime", "trialOnTime") in out && out[AlignedName("trialOnTime", "trialOnTime")] == Num(0.0)
    ensures var out := AlignedToTrialOnTime(rows).rows[i];
      "flashOnTime" in rows[i] && "startTime" in rows[i] && "flashOnTime" in out &&
      Apply(Plus, rows[i]["flashOnTime"], rows[i]["startTime"]) == Ok(out["flashOnTime"])
  {
    TrialOnTimeRows(rows, i);
    TrialTimesAddedRow(rows, i);
    TrialOnAlignedRow(TrialTimesAdded(rows).rows[i], AlignedToTrialOnTime(rows).rows[i]);
  }

  /** Every trial of a completed run ends 1500 ms after its start on the aligned axis. */
  lemma TrialEndAlignment(rows: seq<Row>, i: nat)
    requires AlignedToTrialOnTime(rows).err.None?
    requires i < |rows|
    ensures "startTime" in rows[i]
    ensures var out := AlignedToTrialOnTime(rows).rows[i];
      rows[i]["startTime"].Num? ==>
        AlignedName("trialEndTime", "trialOnTime") in out && AlignedName("startTime", "trialOnTime") in out &&
        out[AlignedName("trialEndTime", "trialOnTime")].Num? && out[AlignedName("startTime", "trialOnTime")].Num? &&
        out[AlignedName("trialEndTime", "trialOnTime")].x - out[AlignedName("startTime", "trialOnTime")].x == ResponseWindow
  {
    TrialOnTimeRows(rows, i);
    TrialTimesAddedRow(rows, i);
    TrialOnAlignedRow(TrialTimesAdded(rows).rows[i], AlignedToTrialOnTime(rows).rows[i]);
  }

  // ---------------------------------------------------------------------------
  // split_data: condition labels
  // ---------------------------------------------------------------------------

  const NotDefined: string := "not defined"

  /**
   * The label split_data means each trial to get: the four flag combinations
   * name the four conditions, any other flag values leave "not defined".
   */
  function ConditionLabel(r: Row): string
    requires "flashShown" in r && "stimJumped" in r
  {
    var flash := r["flashShown"];
    var jump := r["stimJumped"];
    if flash == Num(1.0) && jump == Num(1.0) then "Flash_Shift"
    else if flash == Num(1.0) && jump == Num(0.0) then "Flash_No_Shift"
    else if flash == Num(0.0) && jump == Num(1.0) then "No_Flash_Shift"
    else if flash == Num(0.0) && jump == Num(0.0) then "No_Flash_No_Shift"
    else NotDefined
  }

  function ConditionLabels(rows: seq<Row>): (labels: seq<Cell>)
    requires HasColumn(rows, "flashShown") && HasColumn(rows, "stimJumped")
    ensures |labels| == |rows|
  {
    seq(|rows|, i requires 0 <= i < |rows| => Text(ConditionLabel(rows[i])))
  }

  /** One row under `trial_data.loc[ids, 'condition'] = condition`, ids being the rows flagged (flash, jump). */
  function RowLabelled(r: Row, flash: real, jump: real, condition: string): Row
    requires "flashShown" in r && "stimJumped" in r
  {
    if r["flashShown"] == Num(flash) && r["stimJumped"] == Num(jump) then r["condition" := Text(condition)] else r
  }

  /** The four label writes of split_data, one after another, on one row that starts as "not defined". */
  lemma FourLabelWrites(r: Row)
    requires "flashShown" in r && "stimJumped" in r
    ensures var d := r["condition" := Text(NotDefined)];
      RowLabelled(RowLabelled(RowLabelled(RowLabelled(d, 1.0, 1.0, "Flash_Shift"), 1.0, 0.0, "Flash_No_Shift"),
                              0.0, 1.0, "No_Flash_Shift"), 0.0, 0.0, "No_Flash_No_Shift")
        == r["condition" := Text(ConditionLabel(r))]
  {
  }

  /** `trial_data.loc[ids, 'condition'] = condition` over the whole frame. */
  function LabelWhere(rows: seq<Row>, flash: real, jump: real, condition: string): (rows': seq<Row>)
    requires HasColumn(rows, "flashShown") && HasColumn(rows, "stimJumped")
    ensures |rows'| == |rows| && HasColumn(rows', "flashShown") && HasColumn(rows', "stimJumped")
    ensures forall i :: 0 <= i < |rows| ==> rows'[i] == RowLabelled(rows[i], flash, jump, condition)
  {
    seq(|rows|, i requires 0 <= i < |rows| => RowLabelled(rows[i], flash, jump, condition))
  }

  /**
   * The labelling in split_data: every trial first gets "not defined", then
   * the four flag combinations are written in turn. The four writes together
   * give every row the label ConditionLabel names. A frame without a flag
   * column raises KeyError after the default has been written.
   */
  method LabelConditions(df: DataFrame) returns (err: Option<Error>)
    modifies df`rows
    ensures !HasColumn(old(df.rows), "flashShown") ==>
              err == Some(KeyError("flashShown")) &&
              df.rows == WithColumn(old(df.rows), "condition", Repeat(Text(NotDefined), |old(df.rows)|))
    ensures HasColumn(old(df.rows), "flashShown") && !HasColumn(old(df.rows), "stimJumped") ==>
              err == Some(KeyError("stimJumped")) &&
              df.rows == WithColumn(old(df.rows), "condition", Repeat(Text(NotDefined), |old(df.rows)|))
    ensures HasColumn(old(df.rows), "flashShown") && HasColumn(old(df.rows), "stimJumped") ==>
              err.None? && df.rows == WithColumn(old(df.rows), "condition", ConditionLabels(old(df.rows)))
  {
    ghost var rows0 := df.rows;
    var defaults := Repeat(Text(NotDefined), |df.rows|);
    df.SetColumn("condition", defaults);
    WithColumnKeepsColumns(rows0, "condition", defaults, "flashShown");
    WithColumnKeepsColumns(rows0, "condition", defaults, "stimJumped");
    if !HasColumn(df.rows, "flashShown") {
      return Some(KeyError("flashShown"));
    }
    if !HasColumn(df.rows, "stimJumped") {
      return Some(KeyError("stimJumped"));
    }
    ghost var defaulted := df.rows;
    df.rows := LabelWhere(df.rows, 1.0, 1.0, "Flash_Shift");
    df.rows := LabelWhere(df.rows, 1.0, 0.0, "Flash_No_Shift");
    df.rows := LabelWhere(df.rows, 0.0, 1.0, "No_Flash_Shift");
    df.rows := LabelWhere(df.rows, 0.0, 0.0, "No_Flash_No_Shift");
    forall i | 0 <= i < |rows0|
      ensures df.rows[i] == rows0[i]["condition" := Text(ConditionLabel(rows0[i]))]
    {
      assert defaulted[i] == rows0[i]["condition" := Text(NotDefined)];
      FourLabelWrites(rows0[i]);
    }
    return None;
  }

  // ---------------------------------------------------------------------------
  // perform_time_alignments: touches relative to the first touch
  // ---------------------------------------------------------------------------

  /** aligned_touchOn: each row's touch onsets minus that row's first onset. */
  function AlignedTouchOn(rows: seq<Row>): (r: Result<seq<Cell>>)
    ensures r.Ok? ==> |r.value| == |rows|
  {
    match FirstCells(rows, "touchOnTime")
    case Err(e) => Err(e)
    case Ok(firsts) => ColumnWith(Minus, rows, "touchOnTime", firsts)
  }

  /** A row's re-based onsets keep their number and start at 0. */
  lemma AlignedTouchOnStartsAtZero(rows: seq<Row>, i: nat)
    requires AlignedTouchOn(rows).Ok? && i < |rows|
    ensures "touchOnTime" in rows[i] && rows[i]["touchOnTime"].Vec?
    ensures var xs := rows[i]["touchOnTime"].xs; var c := AlignedTouchOn(rows).value[i];
      xs != [] && c.Vec? && |c.xs| == |xs| && c.xs[0] == 0.0 &&
      forall j :: 0 <= j < |xs| ==> c.xs[j] == xs[j] - xs[0]
  {
    var firsts := FirstCells(rows, "touchOnTime").value;
    var cell := rows[i]["touchOnTime"];
    assert FirstOf(cell) == Ok(firsts[i]);
    assert Apply(Minus, cell, firsts[i]) == Ok(AlignedTouchOn(rows).value[i]);
    match cell
    case Vec(xs) =>
      var ys := MapRight(Minus, xs, xs[0]).value;
      assert AlignedTouchOn(rows).value[i] == Vec(ys);
      assert ApplyScalar(Minus, xs[0], xs[0]) == Ok(ys[0]);
    case Text(t) =>
      assert false;
    case Num(_) =>
      assert false;
  }

  // ---------------------------------------------------------------------------
  // perform_time_alignments: last touch before the flash
  // ---------------------------------------------------------------------------

  /** `d[d < 0]`: the negative entries, in their order. */
  function Negatives(xs: seq<real>): (ns: seq<real>)
    ensures forall x :: x in ns <==> x in xs && x < 0.0
  {
    if xs == [] then []
    else (if xs[0] < 0.0 then [xs[0]] else []) + Negatives(xs[1..])
  }

  /** Python's `max` of a non-empty sequence. */
  function Max(xs: seq<real>): (m: real)
    requires xs != []
    ensures m in xs && forall x :: x in xs ==> x <= m
  {
    if |xs| == 1 then xs[0]
    else
      var rest := Max(xs[1..]);
      assert forall x :: x in xs ==> x == xs[0] || x in xs[1..];
      if xs[0] < rest then rest else xs[0]
  }

  /**
   * One row of the loop in perform_time_alignments: the touch onsets minus the
   * flash onset, masked to the negative ones, and their maximum. A row without
   * a touch before the flash makes `max` raise ValueError; a scalar difference
   * cannot be masked (IndexError).
   */
  function LastInteraction(r: Row): Result<real>
  {
    if "touchOnTime" !in r then Err(KeyError("touchOnTime"))
    else if "flashOnTime" !in r then Err(KeyError("flashOnTime"))
    else
      match Apply(Minus, r["touchOnTime"], r["flashOnTime"])
      case Err(e) => Err(e)
      case Ok(d) =>
        if !d.Vec? then Err(IndexError)
        else if Negatives(d.xs) == [] then Err(ValueError)
        else Ok(Max(Negatives(d.xs)))
  }

  /**
   * interaction_to_change_distance is the latest touch before the flash: it
   * is negative, it is one of the distances, no earlier-than-flash touch is
   * later, and it exists exactly when some touch precedes the flash.
   */
  lemma LastInteractionIsLatestTouch(r: Row, ds: seq<real>)
    requires "touchOnTime" in r && "flashOnTime" in r
    requires Apply(Minus, r["touchOnTime"], r["flashOnTime"]) == Ok(Vec(ds))
    ensures LastInteraction(r).Ok? <==> exists j :: 0 <= j < |ds| && ds[j] < 0.0
    ensures LastInteraction(r).Err? ==> LastInteraction(r) == Err(ValueError)
    ensures LastInteraction(r).Ok? ==>
              var m := LastInteraction(r).value;
              m < 0.0 && m in ds && forall j :: 0 <= j < |ds| && ds[j] < 0.0 ==> ds[j] <= m
  {
    var ns := Negatives(ds);
    assert LastInteraction(r) == if ns == [] then Err(ValueError) else Ok(Max(ns));
    LatestNegative(ds);
  }

  lemma LatestNegative(ds: seq<real>)
    ensures Negatives(ds) != [] <==> exists j :: 0 <= j < |ds| && ds[j] < 0.0
    ensures Negatives(ds) != [] ==>
              var m := Max(Negatives(ds));
              m < 0.0 && m in ds && forall j :: 0 <= j < |ds| && ds[j] < 0.0 ==> ds[j] <= m
  {
    var ns := Negatives(ds);
    if exists j :: 0 <= j < |ds| && ds[j] < 0.0 {
      var j :| 0 <= j < |ds| && ds[j] < 0.0;
      assert ds[j] in ns;
    } else if ns != [] {
      assert ns[0] in ns;
    }
    if ns != [] {
      var m := Max(ns);
      forall j | 0 <= j < |ds| && ds[j] < 0.0
        ensures ds[j] <= m
      {
        assert ds[j] in ns;
      }
    }
  }

  /** The column of last-touch distances, row by row. */
  function LastInteractions(rows: seq<Row>): (r: Result<seq<real>>)
    ensures r.Ok? ==> |r.value| == |rows|
    ensures r.Ok? ==> forall i :: 0 <= i < |rows| ==> LastInteraction(rows[i]) == Ok(r.value[i])
  {
    if rows == [] then Ok([])
    else
      var n := |rows| - 1;
      assert forall i :: 0 <= i < n ==> rows[..n][i] == rows[i];
      match LastInteractions(rows[..n])
      case Err(e) => Err(e)
      case Ok(front) =>
        match LastInteraction(rows[n])
        case Err(e) => Err(e)
        case Ok(d) => Ok(front + [d])
  }

  /** The column fails exactly when the distance of some row fails. */
  lemma {:induction false} LastInteractionsFailIffRowFails(rows: seq<Row>)
    ensures LastInteractions(rows).Err? <==> exists i :: 0 <= i < |rows| && LastInteraction(rows[i]).Err?
  {
    if rows != [] {
      var n := |rows| - 1;
      LastInteractionsFailIffRowFails(rows[..n]);
      if LastInteractions(rows[..n]).Err? {
        var i :| 0 <= i < n && LastInteraction(rows[..n][i]).Err?;
        assert rows[..n][i] == rows[i];
      } else if LastInteractions(rows).Err? {
        assert LastInteraction(rows[n]).Err?;
      } else {
        forall i | 0 <= i < |rows|
          ensures LastInteraction(rows[i]).Ok?
        {
        }
      }
    }
  }

  /** The loop of perform_time_alignments that appends one distance per trial. */
  method TimesToLastInteraction(rows: seq<Row>) returns (res: Result<seq<real>>)
    ensures res == LastInteractions(rows)
  {
    var distances: seq<real> := [];
    for i := 0 to |rows|
      invariant LastInteractions(rows[..i]) == Ok(distances)
    {
      PrefixOfPrefix(rows, i + 1, i);
      var d := LastInteraction(rows[i]);
      if d.Err? {
        assert LastInteractions(rows[..i + 1]) == Err(d.error);
        LastInteractionsPrefixError(rows, i + 1);
        return Err(d.error);
      }
      distances := distances + [d.value];
    }
    WholePrefix(rows);
    return Ok(distances);
  }

  /** A failed prefix still fails, with the same error, one row later. */
  lemma LastInteractionsErrorKept(rows: seq<Row>, k: nat)
    requires k < |rows| && LastInteractions(rows[..k]).Err?
    ensures LastInteractions(rows[..k + 1]) == LastInteractions(rows[..k])
  {
    PrefixOfPrefix(rows, k + 1, k);
  }

  /** Once a prefix of the rows has failed, the whole column fails with the same error. */
  lemma {:induction false} LastInteractionsPrefixError(rows: seq<Row>, k: nat)
    requires k <= |rows|
    requires LastInteractions(rows[..k]).Err?
    ensures LastInteractions(rows) == LastInteractions(rows[..k])
    decreases |rows| - k
  {
    if k < |rows| {
      LastInteractionsErrorKept(rows, k);
      LastInteractionsPrefixError(rows, k + 1);
    } else {
      WholePrefix(rows);
    }
  }

  // ---------------------------------------------------------------------------
  // perform_time_alignments
  // ---------------------------------------------------------------------------

  /** The flash onset on the trial axis, under the name perform_time_alignments gives it. */
  const FlashOnAligned: string := "flashOnTime_aligned"

  /** The time columns perform_time_alignments aligns to the flash onset, in its order. */
  const TimeColumns: seq<string> := [
    AlignedName("trialOnTime", "trialOnTime"), AlignedName("startTime", "trialOnTime"), FlashOnAligned,
    AlignedName("flashOffTime", "trialOnTime"), AlignedName("endTime", "trialOnTime"),
    AlignedName("trialEndTime", "trialOnTime"), AlignedName("touchOnTime", "trialOnTime"),
    AlignedName("touchOffTime", "trialOnTime")]

  /** Reals as a column of numbers. */
  function Nums(xs: seq<real>): (cs: seq<Cell>)
    ensures |cs| == |xs| && forall i :: 0 <= i < |xs| ==> cs[i] == Num(xs[i])
  {
    seq(|xs|, i requires 0 <= i < |xs| => Num(xs[i]))
  }

  /** The first part of perform_time_alignments: both alignments and the rename between them. */
  function FlashAligned(rows: seq<Row>): (r: Run)
    ensures |r.rows| == |rows|
  {
    var onTrial := AlignedToTrialOnTime(rows);
    if onTrial.err.Some? then onTrial
    else
      var renamed := Renamed(onTrial.rows, AlignedName("flashOnTime", "trialOnTime"), FlashOnAligned);
      AlignedToValue(renamed, TimeColumns, FlashOnAligned)
  }

  /** The second part: the re-based touches, then the last touch before the flash. */
  function TouchColumnsAdded(rows: seq<Row>): (r: Run)
    ensures |r.rows| == |rows|
  {
    match AlignedTouchOn(rows)
    case Err(e) => Run(rows, Some(e))
    case Ok(touches) =>
      var rebased := WithColumn(rows, "aligned_touchOn", touches);
      match LastInteractions(rebased)
      case Err(e) => Run(rebased, Some(e))
      case Ok(distances) => Run(WithColumn(rebased, "interaction_to_change_distance", Nums(distances)), None)
  }

  /**
   * perform_time_alignments: align to the trial onset, rename the aligned flash
   * onset, align the time columns to it, re-base the touches on the first one
   * and record the last touch before the flash.
   */
  function TimeAligned(rows: seq<Row>): (r: Run)
    ensures |r.rows| == |rows|
  {
    var aligned := FlashAligned(rows);
    if aligned.err.Some? then aligned else TouchColumnsAdded(aligned.rows)
  }

  method PerformTimeAlignments(df: DataFrame) returns (err: Option<Error>)
    modifies df`rows
    ensures df.rows == TimeAligned(old(df.rows)).rows
    ensures err == TimeAligned(old(df.rows)).err
  {
    err := AlignColumnsToTrialOnTime(df);
    if err.Some? {
      return;
    }
    df.RenameColumn(AlignedName("flashOnTime", "trialOnTime"), FlashOnAligned);
    err := DeriveColumns(df, TimeColumns, AlignedTo(FlashOnAligned));
    if err.Some? {
      return;
    }
    assert df.rows == FlashAligned(old(df.rows)).rows;
    var touches := AlignedTouchOn(df.rows);
    if touches.Err? {
      return Some(touches.error);
    }
    df.SetColumn("aligned_touchOn", touches.value);
    var distances := TimesToLastInteraction(df.rows);
    if distances.Err? {
      return Some(distances.error);
    }
    df.SetColumn("interaction_to_change_distance", Nums(distances.value));
  }

  /**
   * In every row of a completed perform_time_alignments, aligned_touchOn is the
   * touch onsets re-based on the first one, and interaction_to_change_distance
   * is the row's last-touch distance, which is negative.
   */
  lemma TimeAlignedRow(rows: seq<Row>, i: nat)
    requires TimeAligned(rows).err.None? && i < |rows|
    ensures var out := TimeAligned(rows).rows[i];
      "touchOnTime" in out && out["touchOnTime"].Vec? && out["touchOnTime"].xs != [] &&
      "aligned_touchOn" in out && out["aligned_touchOn"].Vec? &&
      |out["aligned_touchOn"].xs| == |out["touchOnTime"].xs| && out["aligned_touchOn"].xs[0] == 0.0
    ensures var out := TimeAligned(rows).rows[i];
      "interaction_to_change_distance" in out && out["interaction_to_change_distance"].Num? &&
      LastInteraction(out) == Ok(out["interaction_to_change_distance"].x) &&
      out["interaction_to_change_distance"].x < 0.0
  {
    TouchColumnsAddedRow(FlashAligned(rows).rows, i);
  }

  lemma TouchColumnsAddedRow(rows: seq<Row>, i: nat)
    requires TouchColumnsAdded(rows).err.None? && i < |rows|
    ensures var out := TouchColumnsAdded(rows).rows[i];
      "touchOnTime" in out && out["touchOnTime"].Vec? && out["touchOnTime"].xs != [] &&
      "aligned_touchOn" in out && out["aligned_touchOn"].Vec? &&
      |out["aligned_touchOn"].xs| == |out["touchOnTime"].xs| && out["aligned_touchOn"].xs[0] == 0.0
    ensures var out := TouchColumnsAdded(rows).rows[i];
      "interaction_to_change_distance" in out && out["interaction_to_change_distance"].Num? &&
      LastInteraction(out) == Ok(out["interaction_to_change_distance"].x) &&
      out["interaction_to_change_distance"].x < 0.0
  {
    var touches := AlignedTouchOn(rows).value;
    var rebased := WithColumn(rows, "aligned_touchOn", touches);
    var distances := LastInteractions(rebased).value;
    var out := TouchColumnsAdded(rows).rows[i];
    assert out == rebased[i]["interaction_to_change_distance" := Num(distances[i])];
    assert rebased[i] == rows[i]["aligned_touchOn" := touches[i]];
    AlignedTouchOnStartsAtZero(rows, i);
    assert LastInteraction(rebased[i]) == Ok(distances[i]);
    assert LastInteraction(out) == LastInteraction(rebased[i]);
    LastInteractionNegative(rebased[i]);
  }

  /** A last-touch distance that exists is negative. */
  lemma LastInteractionNegative(r: Row)
    requires LastInteraction(r).Ok?
    ensures LastInteraction(r).value < 0.0
  {
    var d := Apply(Minus, r["touchOnTime"], r["flashOnTime"]).value;
    LatestNegative(d.xs);
  }

  // ---------------------------------------------------------------------------
  // ensure_formats: the row drop and the event times
  // ---------------------------------------------------------------------------

  /** A trial whose flash offset was recorded: its flashOffTime is not the empty list "[]". */
  predicate FlashOffWasRecorded(r: Row)
    requires "flashOffTime" in r
  {
    r["flashOffTime"] != Text("[]")
  }

  /** The rows whose flash offset was recorded, in their original order. */
  function FlashOffRecorded(rows: seq<Row>): (kept: seq<Row>)
    requires HasColumn(rows, "flashOffTime")
    ensures |kept| <= |rows| && HasColumn(kept, "flashOffTime")
    ensures forall r :: r in kept <==> r in rows && FlashOffWasRecorded(r)
  {
    if rows == [] then []
    else (if FlashOffWasRecorded(rows[0]) then [rows[0]] else []) + FlashOffRecorded(rows[1..])
  }

  /** The drop decides row by row, so the rows it keeps stay in their relative order. */
  lemma {:induction false} FlashOffRecordedConcat(a: seq<Row>, b: seq<Row>)
    requires HasColumn(a, "flashOffTime") && HasColumn(b, "flashOffTime")
    ensures HasColumn(a + b, "flashOffTime")
    ensures FlashOffRecorded(a + b) == FlashOffRecorded(a) + FlashOffRecorded(b)
  {
    if a == [] {
      assert a + b == b;
    } else {
      assert (a + b)[0] == a[0];
      assert (a + b)[1..] == a[1..] + b;
      FlashOffRecordedConcat(a[1..], b);
    }
  }

  /**
   * ensure_formats on an already parsed frame: drop the trials without a
   * recorded flash offset, then scheduled_eventOnTime = startTime +
   * scheduled_change_onset and eventOnTime = startTime + flashOnTime.
   */
  function FormatsEnsured(rows: seq<Row>): Result<seq<Row>>
  {
    if !HasColumn(rows, "flashOffTime") then Err(KeyError("flashOffTime"))
    else
      var kept := FlashOffRecorded(rows);
      match ColumnOp(Plus, kept, "startTime", "scheduled_change_onset")
      case Err(e) => Err(e)
      case Ok(scheduled) =>
        var withScheduled := WithColumn(kept, "scheduled_eventOnTime", scheduled);
        match ColumnOp(Plus, withScheduled, "startTime", "flashOnTime")
        case Err(e) => Err(e)
        case Ok(events) => Ok(WithColumn(withScheduled, "eventOnTime", events))
  }

  /** ensure_formats works on a copy of the rows it keeps and returns that copy. */
  method EnsureFormats(df: DataFrame) returns (res: Result<DataFrame>)
    ensures res.Ok? ==> fresh(res.value)
    ensures res.Ok? <==> FormatsEnsured(df.rows).Ok?
    ensures res.Ok? ==> res.value.rows == FormatsEnsured(df.rows).value
    ensures res.Err? ==> res.error == FormatsEnsured(df.rows).error
  {
    if !HasColumn(df.rows, "flashOffTime") {
      return Err(KeyError("flashOffTime"));
    }
    var trials := new DataFrame(FlashOffRecorded(df.rows));
    var scheduled := ColumnOp(Plus, trials.rows, "startTime", "scheduled_change_onset");
    if scheduled.Err? {
      return Err(scheduled.error);
    }
    trials.SetColumn("scheduled_eventOnTime", scheduled.value);
    var events := ColumnOp(Plus, trials.rows, "startTime", "flashOnTime");
    if events.Err? {
      return Err(events.error);
    }
    trials.SetColumn("eventOnTime", events.value);
    return Ok(trials);
  }

  /**
   * A frame with a flashOffTime column loses exactly its unrecorded trials, and
   * every surviving row gains the two event times as sums of its own cells.
   */
  lemma FormatsEnsuredRows(rows: seq<Row>)
    ensures !HasColumn(rows, "flashOffTime") ==> FormatsEnsured(rows) == Err(KeyError("flashOffTime"))
    ensures FormatsEnsured(rows).Ok? ==>
      var out := FormatsEnsured(rows).value;
      var kept := FlashOffRecorded(rows);
      |out| == |kept| &&
      forall i :: 0 <= i < |out| ==>
        "startTime" in kept[i] && "scheduled_change_onset" in kept[i] && "flashOnTime" in kept[i] &&
        Apply(Plus, kept[i]["startTime"], kept[i]["scheduled_change_onset"]).Ok? &&
        Apply(Plus, kept[i]["startTime"], kept[i]["flashOnTime"]).Ok? &&
        out[i] == kept[i]["scheduled_eventOnTime" := Apply(Plus, kept[i]["startTime"], kept[i]["scheduled_change_onset"]).value]
                         ["eventOnTime" := Apply(Plus, kept[i]["startTime"], kept[i]["flashOnTime"]).value]
  {
    if FormatsEnsured(rows).Ok? {
      var kept := FlashOffRecorded(rows);
      var scheduled := ColumnOp(Plus, kept, "startTime", "scheduled_change_onset").value;
      var withScheduled := WithColumn(kept, "scheduled_eventOnTime", scheduled);
      var events := ColumnOp(Plus, withScheduled, "startTime", "flashOnTime").value;
      forall i | 0 <= i < |kept|
        ensures "startTime" in kept[i] && "scheduled_change_onset" in kept[i] && "flashOnTime" in kept[i]
        ensures Apply(Plus, kept[i]["startTime"], kept[i]["scheduled_change_onset"]) == Ok(scheduled[i])
        ensures Apply(Plus, kept[i]["startTime"], kept[i]["flashOnTime"]) == Ok(events[i])
      {
        assert withScheduled[i] == kept[i]["scheduled_eventOnTime" := scheduled[i]];
      }
    }
  }

  // ---------------------------------------------------------------------------
  // session2ppdva in preprocessing_pipeline
  // ---------------------------------------------------------------------------

  /**
   * A row of the calibration data as far as session2ppdva reads it; a missing
   * session id or pixel-per-degree value (NaN in the table) is None.
   */
  datatype CalibrationRecord = CalibrationRecord(sessionId: Option<string>, trialType: string, px2deg: Option<real>)

  /** The virtual-chinrest rows that carry a session id, in their original order. */
  function ChinrestParams(records: seq<CalibrationRecord>): (params: seq<CalibrationRecord>)
    ensures forall p :: p in params <==> p in records && IsChinrest(p)
  {
    if records == [] then []
    else
      var n := |records| - 1;
      ChinrestParams(records[..n]) + (if IsChinrest(records[n]) then [records[n]] else [])
  }

  predicate IsChinrest(p: CalibrationRecord)
  {
    p.sessionId.Some? && p.trialType == "virtual-chinrest"
  }

  /** The sessions of the chinrest rows. */
  function Sessions(params: seq<CalibrationRecord>): set<string>
  {
    set p | p in params && p.sessionId.Some? :: p.sessionId.value
  }

  /** Every chinrest row has its pixel-per-degree value, so dropna(axis=1) keeps the px2deg column. */
  predicate AllMeasured(params: seq<CalibrationRecord>)
  {
    forall i :: 0 <= i < |params| ==> params[i].px2deg.Some?
  }

  /** The px2deg value of the last row of session `s`. */
  function LastPx2deg(params: seq<CalibrationRecord>, s: string): (v: real)
    requires AllMeasured(params) && s in Sessions(params)
    ensures exists j :: 0 <= j < |params| && params[j].sessionId == Some(s) && params[j].px2deg == Some(v) &&
                        forall k :: j < k < |params| ==> params[k].sessionId != Some(s)
  {
    var n := |params| - 1;
    if params[n].sessionId == Some(s) then params[n].px2deg.value
    else
      assert s in Sessions(params[..n]) by {
        var p :| p in params && p.sessionId == Some(s);
        var j :| 0 <= j < |params| && params[j] == p;
        assert params[..n][j] == p;
      }
      LastPx2deg(params[..n], s)
  }

  /**
   * session2ppdva: each chinrest session mapped to its last px2deg value. A
   * px2deg column that dropna removed raises KeyError on the first lookup; with
   * no chinrest rows there is no lookup and the map is empty.
   */
  function SessionPpdva(records: seq<CalibrationRecord>): Result<map<string, real>>
  {
    var params := ChinrestParams(records);
    if params == [] then Ok(map[])
    else if !AllMeasured(params) then Err(KeyError("px2deg"))
    else Ok(map s | s in Sessions(params) :: LastPx2deg(params, s))
  }

  /** The loop over np.unique(session_id) filling the dictionary one session at a time. */
  method SessionToPpdva(records: seq<CalibrationRecord>) returns (res: Result<map<string, real>>)
    ensures res == SessionPpdva(records)
  {
    var params := ChinrestParams(records);
    if params == [] {
      return Ok(map[]);
    }
    if !AllMeasured(params) {
      return Err(KeyError("px2deg"));
    }
    var ppdva: map<string, real> := map[];
    var todo := Sessions(params);
    while todo != {}
      invariant todo <= Sessions(params)
      invariant ppdva.Keys == Sessions(params) - todo
      invariant forall s :: s in ppdva ==> ppdva[s] == LastPx2deg(params, s)
      decreases todo
    {
      var session :| session in todo;
      ppdva := ppdva[session := LastPx2deg(params, session)];
      todo := todo - {session};
    }
    var expected := map s | s in Sessions(params) :: LastPx2deg(params, s);
    assert ppdva.Keys == expected.Keys;
    assert ppdva == expected;
    assert SessionPpdva(records) == Ok(expected);
    return Ok(ppdva);
  }

  /**
   * The map holds exactly the chinrest sessions, each with the px2deg of its
   * last chinrest row; it fails only when some chinrest row lacks px2deg.
   */
  lemma SessionPpdvaLast(records: seq<CalibrationRecord>, s: string)
    ensures SessionPpdva(records).Err? <==>
              exists i :: 0 <= i < |records| && IsChinrest(records[i]) && records[i].px2deg.None?
    ensures SessionPpdva(records).Ok? ==>
              (s in SessionPpdva(records).value <==>
                 exists i :: 0 <= i < |records| && records[i].sessionId == Some(s) && IsChinrest(records[i]))
    ensures SessionPpdva(records).Ok? && s in SessionPpdva(records).value ==>
              exists i: nat :: LastChinrestOf(records, s, i) && records[i].px2deg == Some(SessionPpdva(records).value[s])
  {
    var params := ChinrestParams(records);
    if SessionPpdva(records).Err? {
      var j :| 0 <= j < |params| && params[j].px2deg.None?;
      assert params[j] in records;
    }
    if exists i :: 0 <= i < |records| && IsChinrest(records[i]) && records[i].px2deg.None? {
      var i :| 0 <= i < |records| && IsChinrest(records[i]) && records[i].px2deg.None?;
      assert records[i] in params;
    }
    if SessionPpdva(records).Ok? && s in SessionPpdva(records).value {
      ChinrestLast(records, s);
    }
  }

  /** Row `i` is the last chinrest row of session `s`. */
  predicate LastChinrestOf(records: seq<CalibrationRecord>, s: string, i: nat)
  {
    i < |records| && IsChinrest(records[i]) && records[i].sessionId == Some(s) &&
    forall k :: i < k < |records| && IsChinrest(records[k]) ==> records[k].sessionId != Some(s)
  }

  /** Session `s`'s value in the chinrest rows comes from its last chinrest row of the whole table. */
  lemma {:induction false} ChinrestLast(records: seq<CalibrationRecord>, s: string)
    requires AllMeasured(ChinrestParams(records)) && s in Sessions(ChinrestParams(records))
    ensures exists i: nat :: LastChinrestOf(records, s, i) &&
                        records[i].px2deg == Some(LastPx2deg(ChinrestParams(records), s))
  {
    var n := |records| - 1;
    var params := ChinrestParams(records);
    if IsChinrest(records[n]) && records[n].sessionId == Some(s) {
      assert params[|params| - 1] == records[n];
      assert LastChinrestOf(records, s, n);
    } else {
      ChinrestFront(records, s);
      ChinrestLast(records[..n], s);
      var i: nat :| LastChinrestOf(records[..n], s, i) &&
               records[..n][i].px2deg == Some(LastPx2deg(ChinrestParams(records[..n]), s));
      LastChinrestExtend(records, s, i);
    }
  }

  /** When the last row is not session `s`'s, the value comes from the rows before it. */
  lemma ChinrestFront(records: seq<CalibrationRecord>, s: string)
    requires AllMeasured(ChinrestParams(records)) && s in Sessions(ChinrestParams(records))
    requires !(IsChinrest(records[|records| - 1]) && records[|records| - 1].sessionId == Some(s))
    ensures AllMeasured(ChinrestParams(records[..|records| - 1]))
    ensures s in Sessions(ChinrestParams(records[..|records| - 1]))
    ensures LastPx2deg(ChinrestParams(records), s) == LastPx2deg(ChinrestParams(records[..|records| - 1]), s)
  {
    var n := |records| - 1;
    var params := ChinrestParams(records);
    var front := ChinrestParams(records[..n]);
    if IsChinrest(records[n]) {
      assert params == front + [records[n]];
      assert params[..|params| - 1] == front;
    } else {
      assert params == front;
    }
    assert AllMeasured(front) by {
      forall j | 0 <= j < |front| ensures front[j].px2deg.Some? {
        assert front[j] == params[j];
      }
    }
    assert s in Sessions(front) by {
      var p :| p in params && p.sessionId == Some(s);
      assert p in front;
    }
  }

  lemma LastChinrestExtend(records: seq<CalibrationRecord>, s: string, i: nat)
    requires records != [] && LastChinrestOf(records[..|records| - 1], s, i)
    requires !(IsChinrest(records[|records| - 1]) && records[|records| - 1].sessionId == Some(s))
    ensures LastChinrestOf(records, s, i) && records[i] == records[..|records| - 1][i]
  {
    var n := |records| - 1;
    forall k | i < k < |records| && IsChinrest(records[k]) ensures records[k].sessionId != Some(s) {
      if k < n {
        assert records[k] == records[..n][k];
      }
    }
  }

  // ---------------------------------------------------------------------------
  // perform_space_alignments: the screen centre and degrees of visual angle
  // ---------------------------------------------------------------------------

  /** The pixel columns perform_space_alignments expresses in degrees, in its order. */
  const DvaColumns: seq<string> := ["touch_x_to_center", "touch_y_to_center", "pos_x_touch_x_dist", "pos_y_touch_y_dist"]

  /**
   * The columns perform_space_alignments takes from helpers that are not part
   * of this model: the dot positions at the touch times and the touch-to-dot
   * distances, one cell per row.
   */
  datatype ForeignColumns = ForeignColumns(xAtTouch: seq<Cell>, yAtTouch: seq<Cell>, xDist: seq<Cell>, yDist: seq<Cell>)

  predicate Fits(f: ForeignColumns, n: nat)
  {
    |f.xAtTouch| == |f.yAtTouch| == |f.xDist| == |f.yDist| == n
  }

  /** `replace(ppdva)` on one session id: a session in the map becomes its value, anything else is left as it is. */
  function Px2dvaCell(c: Cell, ppdva: map<string, real>): (r: Cell)
    ensures c.Text? && c.s in ppdva ==> r == Num(ppdva[c.s])
    ensures !(c.Text? && c.s in ppdva) ==> r == c
  {
    if c.Text? && c.s in ppdva then Num(ppdva[c.s]) else c
  }

  function Px2dvaColumn(rows: seq<Row>, ppdva: map<string, real>): (r: Result<seq<Cell>>)
    ensures r.Err? <==> !HasColumn(rows, "session_id")
    ensures r.Ok? ==> |r.value| == |rows|
    ensures r.Ok? ==> forall i :: 0 <= i < |rows| ==> r.value[i] == Px2dvaCell(rows[i]["session_id"], ppdva)
  {
    if !HasColumn(rows, "session_id") then Err(KeyError("session_id"))
    else Ok(seq(|rows|, i requires 0 <= i < |rows| => Px2dvaCell(rows[i]["session_id"], ppdva)))
  }

  /** touch_x_to_center = touchX - windowWidth / 2, and the same for y. */
  function CentreAligned(rows: seq<Row>): (r: Run)
    ensures |r.rows| == |rows|
  {
    var halves := Repeat(Num(2.0), |rows|);
    match ColumnWith(Over, rows, "windowWidth", halves)
    case Err(e) => Run(rows, Some(e))
    case Ok(xCentre) =>
      match ColumnWith(Over, rows, "windowHeight", halves)
      case Err(e) => Run(rows, Some(e))
      case Ok(yCentre) =>
        match ColumnWith(Minus, rows, "touchX", xCentre)
        case Err(e) => Run(rows, Some(e))
        case Ok(xs) =>
          var withX := WithColumn(rows, "touch_x_to_center", xs);
          match ColumnWith(Minus, withX, "touchY", yCentre)
          case Err(e) => Run(withX, Some(e))
          case Ok(ys) => Run(WithColumn(withX, "touch_y_to_center", ys), None)
  }

  /** The dot positions at the touch times, from the foreign helper. */
  function Located(rows: seq<Row>, f: ForeignColumns): (r: seq<Row>)
    requires Fits(f, |rows|)
    ensures |r| == |rows|
  {
    WithColumn(WithColumn(rows, "position_x_at_touch", f.xAtTouch), "position_y_at_touch", f.yAtTouch)
  }

  /** The touch-to-dot distances, from the foreign helper. */
  function WithDistances(rows: seq<Row>, f: ForeignColumns): (r: seq<Row>)
    requires Fits(f, |rows|)
    ensures |r| == |rows|
  {
    WithColumn(WithColumn(rows, "pos_x_touch_x_dist", f.xDist), "pos_y_touch_y_dist", f.yDist)
  }

  /**
   * perform_space_alignments as far as it is modelled: the foreign position
   * columns, the centred touches, the foreign distances, the session's
   * pixel-per-degree value and the four columns divided by it.
   */
  function SpaceAligned(rows: seq<Row>, ppdva: map<string, real>, f: ForeignColumns): (r: Run)
    requires Fits(f, |rows|)
    ensures |r.rows| == |rows|
  {
    var centred := CentreAligned(Located(rows, f));
    if centred.err.Some? then centred
    else DvaStage(WithDistances(centred.rows, f), ppdva)
  }

  /** The last part: px2dva from the session id, then the four columns divided by it. */
  function DvaStage(rows: seq<Row>, ppdva: map<string, real>): (r: Run)
    ensures |r.rows| == |rows|
  {
    match Px2dvaColumn(rows, ppdva)
    case Err(e) => Run(rows, Some(e))
    case Ok(px) => Derived(WithColumn(rows, "px2dva", px), DvaColumns, InDva)
  }

  method PerformSpaceAlignments(df: DataFrame, ppdva: map<string, real>, f: ForeignColumns) returns (err: Option<Error>)
    requires Fits(f, |df.rows|)
    modifies df`rows
    ensures df.rows == SpaceAligned(old(df.rows), ppdva, f).rows
    ensures err == SpaceAligned(old(df.rows), ppdva, f).err
  {
    df.SetColumn("position_x_at_touch", f.xAtTouch);
    df.SetColumn("position_y_at_touch", f.yAtTouch);
    var halves := Repeat(Num(2.0), |df.rows|);
    var xCentre := ColumnWith(Over, df.rows, "windowWidth", halves);
    if xCentre.Err? {
      return Some(xCentre.error);
    }
    var yCentre := ColumnWith(Over, df.rows, "windowHeight", halves);
    if yCentre.Err? {
      return Some(yCentre.error);
    }
    var xs := ColumnWith(Minus, df.rows, "touchX", xCentre.value);
    if xs.Err? {
      return Some(xs.error);
    }
    df.SetColumn("touch_x_to_center", xs.value);
    var ys := ColumnWith(Minus, df.rows, "touchY", yCentre.value);
    if ys.Err? {
      return Some(ys.error);
    }
    df.SetColumn("touch_y_to_center", ys.value);
    df.SetColumn("pos_x_touch_x_dist", f.xDist);
    df.SetColumn("pos_y_touch_y_dist", f.yDist);
    var px := Px2dvaColumn(df.rows, ppdva);
    if px.Err? {
      return Some(px.error);
    }
    df.SetColumn("px2dva", px.value);
    err := DeriveColumns(df, DvaColumns, InDva);
  }

  /** Row `out` holds the touches of row `r` relative to the screen centre: touch - window size / 2. */
  predicate RowCentred(r: Row, out: Row)
  {
    "windowWidth" in r && "touchX" in r && Apply(Over, r["windowWidth"], Num(2.0)).Ok? &&
    "touch_x_to_center" in out &&
    Apply(Minus, r["touchX"], Apply(Over, r["windowWidth"], Num(2.0)).value) == Ok(out["touch_x_to_center"]) &&
    "windowHeight" in r && "touchY" in r && Apply(Over, r["windowHeight"], Num(2.0)).Ok? &&
    "touch_y_to_center" in out &&
    Apply(Minus, r["touchY"], Apply(Over, r["windowHeight"], Num(2.0)).value) == Ok(out["touch_y_to_center"])
  }

  /** The centred touch columns of one row of a completed run. */
  lemma CentreAlignedRow(rows: seq<Row>, i: nat)
    requires CentreAligned(rows).err.None? && i < |rows|
    ensures RowCentred(rows[i], CentreAligned(rows).rows[i])
  {
    var halves := Repeat(Num(2.0), |rows|);
    var xCentre := ColumnWith(Over, rows, "windowWidth", halves).value;
    var yCentre := ColumnWith(Over, rows, "windowHeight", halves).value;
    var xs := ColumnWith(Minus, rows, "touchX", xCentre).value;
    var withX := WithColumn(rows, "touch_x_to_center", xs);
    var ys := ColumnWith(Minus, withX, "touchY", yCentre).value;
    assert withX[i] == rows[i]["touch_x_to_center" := xs[i]];
    assert CentreAligned(rows).rows[i] == withX[i]["touch_y_to_center" := ys[i]];
  }

  /** The four pixel columns never collide with their dva names or with px2dva. */
  lemma DvaColumnsDoNotCollide()
    ensures NoCollision(DvaColumns, InDva)
    ensures forall c :: c in DvaColumns ==> 17 <= |c| < 19 <= |DerivedName(c, InDva)|
  {
    ShortNamesDoNotCollide(DvaColumns, InDva, 19);
  }

  /**
   * Row `out` is row `r` after the dva stage: px2dva is the session's
   * pixel-per-degree value, each of the four pixel columns divided by it is
   * stored under "{col}_dva", and the pixel columns themselves are unchanged.
   */
  predicate RowInDva(r: Row, out: Row, ppdva: map<string, real>)
  {
    "session_id" in r && "px2dva" in out && out["px2dva"] == Px2dvaCell(r["session_id"], ppdva) &&
    forall c :: c in DvaColumns ==>
      c in r && c in out && out[c] == r[c] && DerivedName(c, InDva) in out &&
      Apply(Over, out[c], out["px2dva"]) == Ok(out[DerivedName(c, InDva)])
  }

  lemma DvaStageRow(rows: seq<Row>, ppdva: map<string, real>, i: nat)
    requires DvaStage(rows, ppdva).err.None? && i < |rows|
    ensures RowInDva(rows[i], DvaStage(rows, ppdva).rows[i], ppdva)
  {
    var px := Px2dvaColumn(rows, ppdva).value;
    var before := WithColumn(rows, "px2dva", px);
    assert before[i] == rows[i]["px2dva" := px[i]];
    DvaColumnsDoNotCollide();
    DerivedCells(before, DvaColumns, InDva, i);
    assert DvaStage(rows, ppdva).rows[i] == Derived(before, DvaColumns, InDva).rows[i];
    RowInDvaOfDerived(rows[i], px[i], DvaStage(rows, ppdva).rows[i], ppdva);
  }

  /** One row of the dva stage: px2dva is set first, then every column is divided by it. */
  lemma RowInDvaOfDerived(r: Row, px: Cell, out: Row, ppdva: map<string, real>)
    requires "session_id" in r && px == Px2dvaCell(r["session_id"], ppdva)
    requires RowDerived(r["px2dva" := px], out, DvaColumns, InDva)
    ensures RowInDva(r, out, ppdva)
  {
    var b := r["px2dva" := px];
    DvaColumnsDoNotCollide();
    NotDerived(DvaColumns, InDva, "px2dva", 19);
    assert out["px2dva"] == b["px2dva"];
    forall c | c in DvaColumns
      ensures c in r && c in out && out[c] == r[c] && DerivedName(c, InDva) in out
      ensures Apply(Over, out[c], out["px2dva"]) == Ok(out[DerivedName(c, InDva)])
    {
      DvaColumnOfDerived(r, px, out, c);
    }
  }

  lemma DvaColumnOfDerived(r: Row, px: Cell, out: Row, c: string)
    requires RowDerived(r["px2dva" := px], out, DvaColumns, InDva) && c in DvaColumns
    requires out["px2dva"] == px
    ensures c in r && c in out && out[c] == r[c] && DerivedName(c, InDva) in out
    ensures Apply(Over, out[c], out["px2dva"]) == Ok(out[DerivedName(c, InDva)])
  {
    var b := r["px2dva" := px];
    DvaColumnsDoNotCollide();
    NotDerived(DvaColumns, InDva, c, 19);
    assert c != "px2dva";
    assert b[c] == r[c];
  }

  /**
   * Row `out` is `r` after perform_space_alignments: the centred touches, the
   * session's pixel-per-degree value in px2dva, and the four pixel columns
   * divided by it under "{col}_dva".
   */
  predicate RowSpaceAligned(r: Row, out: Row, ppdva: map<string, real>)
  {
    RowCentred(r, out) &&
    "session_id" in r && "px2dva" in out && out["px2dva"] == Px2dvaCell(r["session_id"], ppdva) &&
    forall c :: c in DvaColumns ==>
      c in out && DerivedName(c, InDva) in out && Apply(Over, out[c], out["px2dva"]) == Ok(out[DerivedName(c, InDva)])
  }

  /** What a completed perform_space_alignments promises of every row. */
  lemma SpaceAlignedTouch(rows: seq<Row>, ppdva: map<string, real>, f: ForeignColumns, i: nat)
    requires Fits(f, |rows|) && SpaceAligned(rows, ppdva, f).err.None? && i < |rows|
    ensures RowSpaceAligned(rows[i], SpaceAligned(rows, ppdva, f).rows[i], ppdva)
  {
    var located := Located(rows, f);
    var centred := CentreAligned(located).rows;
    var dists := WithDistances(centred, f);
    assert SpaceAligned(rows, ppdva, f) == DvaStage(dists, ppdva);
    LocatedRow(rows, f, i);
    CentreAlignedRow(located, i);
    CentreAlignedKeys(located, i);
    DistancesRow(centred, f, i);
    CentredBeneathPositions(rows[i], f.xAtTouch[i], f.yAtTouch[i], centred[i]);
    DvaStageRow(dists, ppdva, i);
    ThroughDistances(rows[i], centred[i], f.xDist[i], f.yDist[i], SpaceAligned(rows, ppdva, f).rows[i], ppdva);
  }

  /** The position columns written before the centring are not among the cells it reads. */
  lemma CentredBeneathPositions(r: Row, x: Cell, y: Cell, centred: Row)
    requires RowCentred(r["position_x_at_touch" := x]["position_y_at_touch" := y], centred)
    requires centred.Keys == r["position_x_at_touch" := x]["position_y_at_touch" := y].Keys + {"touch_x_to_center", "touch_y_to_center"}
    requires forall c :: c in r["position_x_at_touch" := x]["position_y_at_touch" := y] &&
                         c != "touch_x_to_center" && c != "touch_y_to_center" ==>
                           centred[c] == r["position_x_at_touch" := x]["position_y_at_touch" := y][c]
    ensures RowCentred(r, centred)
    ensures "session_id" in centred <==> "session_id" in r
    ensures "session_id" in r ==> centred["session_id"] == r["session_id"]
  {
  }

  /** The distance columns written between the centring and the dva stage leave both intact. */
  lemma ThroughDistances(r: Row, centred: Row, x: Cell, y: Cell, out: Row, ppdva: map<string, real>)
    requires RowCentred(r, centred)
    requires "session_id" in centred <==> "session_id" in r
    requires "session_id" in r ==> centred["session_id"] == r["session_id"]
    requires RowInDva(centred["pos_x_touch_x_dist" := x]["pos_y_touch_y_dist" := y], out, ppdva)
    ensures RowSpaceAligned(r, out, ppdva)
  {
    var d := centred["pos_x_touch_x_dist" := x]["pos_y_touch_y_dist" := y];
    assert "touch_x_to_center" in DvaColumns && "touch_y_to_center" in DvaColumns;
    assert out["touch_x_to_center"] == d["touch_x_to_center"] == centred["touch_x_to_center"];
    assert out["touch_y_to_center"] == d["touch_y_to_center"] == centred["touch_y_to_center"];
    assert "session_id" in d;
  }

  lemma LocatedRow(rows: seq<Row>, f: ForeignColumns, i: nat)
    requires Fits(f, |rows|) && i < |rows|
    ensures Located(rows, f)[i] == rows[i]["position_x_at_touch" := f.xAtTouch[i]]["position_y_at_touch" := f.yAtTouch[i]]
  {
  }

  /** Centring adds the two centred columns and changes nothing else. */
  lemma CentreAlignedKeys(rows: seq<Row>, i: nat)
    requires CentreAligned(rows).err.None? && i < |rows|
    ensures CentreAligned(rows).rows[i].Keys == rows[i].Keys + {"touch_x_to_center", "touch_y_to_center"}
    ensures forall c :: c in rows[i] && c != "touch_x_to_center" && c != "touch_y_to_center" ==>
              CentreAligned(rows).rows[i][c] == rows[i][c]
  {
    var x, y := CentreAlignedCells(rows, i);
    TwoWrites(rows[i], "touch_x_to_center", x, "touch_y_to_center", y);
  }

  /** Row i of the centred frame is row i with its two centred cells written. */
  lemma CentreAlignedCells(rows: seq<Row>, i: nat) returns (x: Cell, y: Cell)
    requires CentreAligned(rows).err.None? && i < |rows|
    ensures CentreAligned(rows).rows[i] == rows[i]["touch_x_to_center" := x]["touch_y_to_center" := y]
  {
    var halves := Repeat(Num(2.0), |rows|);
    var xCentre := ColumnWith(Over, rows, "windowWidth", halves).value;
    var yCentre := ColumnWith(Over, rows, "windowHeight", halves).value;
    var xs := ColumnWith(Minus, rows, "touchX", xCentre).value;
    var withX := WithColumn(rows, "touch_x_to_center", xs);
    var ys := ColumnWith(Minus, withX, "touchY", yCentre).value;
    x, y := xs[i], ys[i];
    assert withX[i] == rows[i]["touch_x_to_center" := x];
  }

  lemma DistancesRow(rows: seq<Row>, f: ForeignColumns, i: nat)
    requires Fits(f, |rows|) && i < |rows|
    ensures WithDistances(rows, f)[i] == rows[i]["pos_x_touch_x_dist" := f.xDist[i]]["pos_y_touch_y_dist" := f.yDist[i]]
  {
  }
}
