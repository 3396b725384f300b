/**
 * The trial table as the analysis code sees it: a data frame is a sequence of
 * rows, a row maps column names to cells, and a cell holds a number, an array
 * of numbers or an unparsed string. Arithmetic between cells follows numpy's
 * broadcasting of a scalar over an array.
 */
module Frames {
  import opened Wrappers

  datatype Cell = Num(x: real) | Vec(xs: seq<real>) | Text(s: string)

  type Row = map<string, Cell>

  datatype Op = Minus | Plus | Over

  /** Scalar arithmetic; division by zero is an error rather than an IEEE infinity. */
  function ApplyScalar(op: Op, x: real, y: real): Result<real>
  {
    match op
    case Minus => Ok(x - y)
    case Plus => Ok(x + y)
    case Over => if y == 0.0 then Err(ZeroDivision) else Ok(x / y)
  }

  /** `op` applied to every element of `xs` with the scalar `y` on the right. */
  function MapRight(op: Op, xs: seq<real>, y: real): (r: Result<seq<real>>)
    ensures r.Ok? ==> |r.value| == |xs|
    ensures r.Ok? ==> forall i :: 0 <= i < |xs| ==> ApplyScalar(op, xs[i], y) == Ok(r.value[i])
    ensures r.Err? <==> exists i :: 0 <= i < |xs| && ApplyScalar(op, xs[i], y).Err?
  {
    if xs == [] then Ok([])
    else
      match (ApplyScalar(op, xs[0], y), MapRight(op, xs[1..], y))
      case (Ok(h), Ok(t)) => Ok([h] + t)
      case (Err(e), _) => Err(e)
      case (_, Err(e)) => Err(e)
  }

  /** `op` with the scalar `x` on the left of every element of `ys`. */
  function MapLeft(op: Op, x: real, ys: seq<real>): (r: Result<seq<real>>)
    ensures r.Ok? ==> |r.value| == |ys|
    ensures r.Ok? ==> forall i :: 0 <= i < |ys| ==> ApplyScalar(op, x, ys[i]) == Ok(r.value[i])
    ensures r.Err? <==> exists i :: 0 <= i < |ys| && ApplyScalar(op, x, ys[i]).Err?
  {
    if ys == [] then Ok([])
    else
      match (ApplyScalar(op, x, ys[0]), MapLeft(op, x, ys[1..]))
      case (Ok(h), Ok(t)) => Ok([h] + t)
      case (Err(e), _) => Err(e)
      case (_, Err(e)) => Err(e)
  }

  /** Element-wise `op` of two arrays of the same length. */
  function Zip(op: Op, xs: seq<real>, ys: seq<real>): (r: Result<seq<real>>)
    requires |xs| == |ys|
    ensures r.Ok? ==> |r.value| == |xs|
    ensures r.Ok? ==> forall i :: 0 <= i < |xs| ==> ApplyScalar(op, xs[i], ys[i]) == Ok(r.value[i])
    ensures r.Err? <==> exists i :: 0 <= i < |xs| && ApplyScalar(op, xs[i], ys[i]).Err?
  {
    if xs == [] then Ok([])
    else
      match (ApplyScalar(op, xs[0], ys[0]), Zip(op, xs[1..], ys[1..]))
      case (Ok(h), Ok(t)) => Ok([h] + t)
      case (Err(e), _) => Err(e)
      case (_, Err(e)) => Err(e)
  }

  /**
   * numpy arithmetic between two cells: scalar with scalar, a scalar broadcast
   * over an array on either side, two arrays of equal length element-wise.
   * Strings raise TypeError; arrays of different lengths raise ValueError.
   */
  function Apply(op: Op, a: Cell, b: Cell): (r: Result<Cell>)
    ensures a.Text? || b.Text? ==> r == Err(TypeError)
    ensures a.Vec? && b.Vec? && |a.xs| != |b.xs| ==> r == Err(ValueError)
    ensures a.Num? && b.Num? && r.Ok? ==> r.value.Num?
    ensures r.Ok? && a.Vec? ==> r.value.Vec? && |r.value.xs| == |a.xs|
    ensures r.Ok? && b.Vec? ==> r.value.Vec? && |r.value.xs| == |b.xs|
    ensures r.Ok? ==> !r.value.Text?
  {
    match (a, b)
    case (Num(x), Num(y)) =>
      (match ApplyScalar(op, x, y) case Ok(v) => Ok(Num(v)) case Err(e) => Err(e))
    case (Vec(xs), Num(y)) =>
      (match MapRight(op, xs, y) case Ok(v) => Ok(Vec(v)) case Err(e) => Err(e))
    case (Num(x), Vec(ys)) =>
      (match MapLeft(op, x, ys) case Ok(v) => Ok(Vec(v)) case Err(e) => Err(e))
    case (Vec(xs), Vec(ys)) =>
      if |xs| != |ys| then Err(ValueError)
      else (match Zip(op, xs, ys) case Ok(v) => Ok(Vec(v)) case Err(e) => Err(e))
    case _ => Err(TypeError)
  }

  /** The name pandas code gives a column aligned to another: "{col}_to_{ref}". */
  function AlignedName(col: string, ref: string): string
  {
    col + "_to_" + ref
  }

  predicate HasColumn(rows: seq<Row>, col: string)
  {
    forall i :: 0 <= i < |rows| ==> col in rows[i]
  }

  /**
   * The column `op(col, ref)`, row by row. A column missing from some row
   * raises KeyError; a failing cell makes the whole column fail. Defined on
   * the last row so that a loop over the rows extends it one row at a time.
   */
  function ColumnOp(op: Op, rows: seq<Row>, col: string, ref: string): (r: Result<seq<Cell>>)
    ensures r.Ok? ==> |r.value| == |rows| && HasColumn(rows, col) && HasColumn(rows, ref)
    ensures r.Ok? ==> forall i :: 0 <= i < |rows| ==> Apply(op, rows[i][col], rows[i][ref]) == Ok(r.value[i])
    ensures HasColumn(rows, col) && HasColumn(rows, ref) ==>
              (r.Err? <==> exists i :: 0 <= i < |rows| && Apply(op, rows[i][col], rows[i][ref]).Err?)
  {
    if rows == [] then Ok([])
    else
      var n := |rows| - 1;
      match ColumnOp(op, rows[..n], col, ref)
      case Err(e) => Err(e)
      case Ok(front) =>
        if col !in rows[n] then Err(KeyError(col))
        else if ref !in rows[n] then Err(KeyError(ref))
        else
          match Apply(op, rows[n][col], rows[n][ref])
          case Err(e) => Err(e)
          case Ok(c) => Ok(front + [c])
  }

  /**
   * The column `op(col, rhs[i])` row by row, where the right-hand side is not a
   * column of the frame: a constant, or a series computed beforehand.
   */
  function ColumnWith(op: Op, rows: seq<Row>, col: string, rhs: seq<Cell>): (r: Result<seq<Cell>>)
    requires |rhs| == |rows|
    ensures r.Ok? ==> |r.value| == |rows| && HasColumn(rows, col)
    ensures r.Ok? ==> forall i :: 0 <= i < |rows| ==> Apply(op, rows[i][col], rhs[i]) == Ok(r.value[i])
    ensures HasColumn(rows, col) ==>
              (r.Err? <==> exists i :: 0 <= i < |rows| && Apply(op, rows[i][col], rhs[i]).Err?)
  {
    if rows == [] then Ok([])
    else
      var n := |rows| - 1;
      match ColumnWith(op, rows[..n], col, rhs[..n])
      case Err(e) => Err(e)
      case Ok(front) =>
        if col !in rows[n] then Err(KeyError(col))
        else
          match Apply(op, rows[n][col], rhs[n])
          case Err(e) => Err(e)
          case Ok(c) => Ok(front + [c])
  }

  /** A scalar broadcast to a whole column. */
  function Repeat(c: Cell, n: nat): (cs: seq<Cell>)
    ensures |cs| == n && forall i :: 0 <= i < n ==> cs[i] == c
  {
    seq(n, _ => c)
  }

  /** Assigning a whole column: every row gets (or has overwritten) the cell `name`. */
  function WithColumn(rows: seq<Row>, name: string, values: seq<Cell>): seq<Row>
    requires |values| == |rows|
  {
    seq(|rows|, i requires 0 <= i < |rows| => rows[i][name := values[i]])
  }

  /** After the assignment the new column holds `values` and every other cell is untouched. */
  lemma WithColumnFrame(rows: seq<Row>, name: string, values: seq<Cell>)
    requires |values| == |rows|
    ensures |WithColumn(rows, name, values)| == |rows|
    ensures forall i :: 0 <= i < |rows| ==>
              WithColumn(rows, name, values)[i].Keys == rows[i].Keys + {name} &&
              WithColumn(rows, name, values)[i][name] == values[i]
    ensures forall i, c :: 0 <= i < |rows| && c in rows[i] && c != name ==>
              WithColumn(rows, name, values)[i][c] == rows[i][c]
  {
  }

  /** Writing two cells of a row adds their columns and keeps every other cell. */
  lemma TwoWrites(r: Row, a: string, x: Cell, b: string, y: Cell)
    ensures r[a := x][b := y].Keys == r.Keys + {a, b}
    ensures forall c :: c in r && c != a && c != b ==> r[a := x][b := y][c] == r[c]
  {
  }

  /** One row after renaming column `from` to `to`. */
  function RenamedRow(r: Row, from: string, to: string): (r': Row)
    ensures from in r ==> r'.Keys == r.Keys - {from} + {to} && r'[to] == r[from]
    ensures from in r ==> forall c :: c in r && c != from && c != to ==> c in r' && r'[c] == r[c]
    ensures from !in r ==> r' == r
  {
    if from in r then (r - {from})[to := r[from]] else r
  }

  function Renamed(rows: seq<Row>, from: string, to: string): (rows': seq<Row>)
    ensures |rows'| == |rows| && forall i :: 0 <= i < |rows| ==> rows'[i] == RenamedRow(rows[i], from, to)
  {
    seq(|rows|, i requires 0 <= i < |rows| => RenamedRow(rows[i], from, to))
  }

  /** Assigning one column leaves the presence of every other column as it was. */
  lemma WithColumnKeepsColumns(rows: seq<Row>, name: string, values: seq<Cell>, col: string)
    requires |values| == |rows| && col != name
    ensures HasColumn(WithColumn(rows, name, values), col) <==> HasColumn(rows, col)
  {
    forall i | 0 <= i < |rows|
      ensures col in WithColumn(rows, name, values)[i] <==> col in rows[i]
    {
      assert WithColumn(rows, name, values)[i] == rows[i][name := values[i]];
    }
  }

  /** A data frame whose columns are added or overwritten in place. */
  class DataFrame {
    var rows: seq<Row>

    constructor (rows: seq<Row>)
      ensures this.rows == rows
    {
      this.rows := rows;
    }

    method SetColumn(name: string, values: seq<Cell>)
      requires |values| == |rows|
      modifies this`rows
      ensures rows == WithColumn(old(rows), name, values)
    {
      rows := WithColumn(rows, name, values);
    }

    /** `rename(columns={from: to}, inplace=True)`: a column that is not there is ignored. */
    method RenameColumn(from: string, to: string)
      modifies this`rows
      ensures rows == Renamed(old(rows), from, to)
    {
      rows := Renamed(rows, from, to);
    }
  }
}
