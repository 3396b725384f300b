/**
 * The causal movement-rate estimator and the row-wise alignment helpers of
 * analysis/helper_funcs.py.
 *
 * The estimator's kernel alpha^2 * tau * exp(-alpha * tau) is a parameter
 * `kernel` (the kernel already bound to alpha, as a function of tau): the
 * properties proved here are structural and hold for any kernel, or for any
 * non-negative one where that is stated.
 */
module HelperFuncs {
  import opened Wrappers
  import opened Frames
  import opened Sequences

  // ---------------------------------------------------------------------------
  // clean_dataframe
  // ---------------------------------------------------------------------------

  /** A row that clean_dataframe keeps: a main-trial row that was a success. */
  predicate IsSuccessfulTrialRow(r: Row)
  {
    "test_part" in r && r["test_part"] == Text("trial") &&
    "success" in r && r["success"] == Num(1.0)
  }

  /** The rows of `rows` that are successful trial rows, in their original order. */
  function CleanDataframe(rows: seq<Row>): (kept: seq<Row>)
    ensures |kept| <= |rows|
    ensures forall r :: r in kept <==> r in rows && IsSuccessfulTrialRow(r)
  {
    if rows == [] then []
    else (if IsSuccessfulTrialRow(rows[0]) then [rows[0]] else []) + CleanDataframe(rows[1..])
  }

  /** Cleaning works row by row, so it keeps the relative order of the rows it keeps. */
  lemma {:induction false} CleanDataframeConcat(a: seq<Row>, b: seq<Row>)
    ensures CleanDataframe(a + b) == CleanDataframe(a) + CleanDataframe(b)
  {
    if a == [] {
      assert a + b == b;
    } else {
      assert (a + b)[0] == a[0];
      assert (a + b)[1..] == a[1..] + b;
      CleanDataframeConcat(a[1..], b);
    }
  }

  /** Cleaning an already cleaned frame changes nothing. */
  lemma {:induction false} CleanDataframeIdempotent(rows: seq<Row>)
    ensures CleanDataframe(CleanDataframe(rows)) == CleanDataframe(rows)
  {
    if rows != [] {
      var head := if IsSuccessfulTrialRow(rows[0]) then [rows[0]] else [];
      CleanDataframeConcat(head, CleanDataframe(rows[1..]));
      CleanDataframeIdempotent(rows[1..]);
      if IsSuccessfulTrialRow(rows[0]) {
        assert CleanDataframe(head) == head by {
          assert head[1..] == [];
        }
      } else {
        assert CleanDataframe(head) == [];
      }
    }
  }

  // ---------------------------------------------------------------------------
  // align_to_start
  // ---------------------------------------------------------------------------

  /**
   * json.loads applied to a cell: only a string can be parsed, by `decode`
   * (the JSON parser, a library routine and so a parameter); any other cell
   * raises TypeError.
   */
  function Loads(decode: string -> Result<Cell>, c: Cell): (r: Result<Cell>)
    ensures !c.Text? ==> r == Err(TypeError)
  {
    match c
    case Text(s) => decode(s)
    case _ => Err(TypeError)
  }

  /** The first fallback of align_to_start: the first cell parsed as JSON, minus the second. */
  function MinusParsedLeft(decode: string -> Result<Cell>, a: Cell, b: Cell): Result<Cell>
  {
    match Loads(decode, a)
    case Err(e) => Err(e)
    case Ok(x) => Apply(Minus, x, b)
  }

  /** The second fallback of align_to_start: the first cell minus the second parsed as JSON. */
  function MinusParsedRight(decode: string -> Result<Cell>, a: Cell, b: Cell): Result<Cell>
  {
    match Loads(decode, b)
    case Err(e) => Err(e)
    case Ok(y) => Apply(Minus, a, y)
  }

  /**
   * One row of align_to_start: the plain difference; if that raises, the
   * first cell parsed as JSON minus the second; if that raises too, the
   * first cell minus the second parsed as JSON, whose error is the one that
   * escapes.
   */
  function AlignCell(decode: string -> Result<Cell>, a: Cell, b: Cell): (r: Result<Cell>)
    // a difference numpy can take directly is the one the row gets
    ensures Apply(Minus, a, b).Ok? ==> r == Apply(Minus, a, b)
    // between numbers and arrays the fallbacks rescue nothing, and a failure
    // (two arrays of different lengths) surfaces as json.loads's TypeError
    ensures !a.Text? && !b.Text? && Apply(Minus, a, b).Err? ==> r == Err(TypeError)
    // a string that parses to a number or an array stands for it on either side
    ensures a.Text? && !b.Text? && decode(a.s).Ok? && Apply(Minus, decode(a.s).value, b).Ok? ==>
              r == Apply(Minus, decode(a.s).value, b)
    ensures !a.Text? && b.Text? && decode(b.s).Ok? && Apply(Minus, a, decode(b.s).value).Ok? ==>
              r == Apply(Minus, a, decode(b.s).value)
    // only one side is ever parsed, so two strings never align
    ensures a.Text? && b.Text? ==> r.Err?
    ensures r.Ok? ==> !r.value.Text?
  {
    match Apply(Minus, a, b)
    case Ok(v) => Ok(v)
    case Err(_) =>
      match MinusParsedLeft(decode, a, b)
      case Ok(v) => Ok(v)
      case Err(_) => MinusParsedRight(decode, a, b)
  }

  /**
   * The aligned column row by row. A column missing from a row raises
   * KeyError (the fallbacks read the same cells and raise it again); a row
   * whose three attempts fail makes the whole column fail. Defined on the
   * last row so that a loop over the rows extends it one row at a time.
   */
  function AlignedColumn(decode: string -> Result<Cell>, rows: seq<Row>, col: string, ref: string)
    : (r: Result<seq<Cell>>)
    ensures r.Ok? ==> |r.value| == |rows| && HasColumn(rows, col) && HasColumn(rows, ref)
    ensures r.Ok? ==> forall i :: 0 <= i < |rows| ==> AlignCell(decode, rows[i][col], rows[i][ref]) == Ok(r.value[i])
    ensures HasColumn(rows, col) && HasColumn(rows, ref) ==>
              (r.Err? <==> exists i :: 0 <= i < |rows| && AlignCell(decode, rows[i][col], rows[i][ref]).Err?)
  {
    if rows == [] then Ok([])
    else
      var n := |rows| - 1;
      match AlignedColumn(decode, rows[..n], col, ref)
      case Err(e) => Err(e)
      case Ok(front) =>
        if col !in rows[n] then Err(KeyError(col))
        else if ref !in rows[n] then Err(KeyError(ref))
        else
          match AlignCell(decode, rows[n][col], rows[n][ref])
          case Err(e) => Err(e)
          case Ok(c) => Ok(front + [c])
  }

  /**
   * align_to_start: a copy of the frame that gains "{column}_to_{startColumn}",
   * holding column - startColumn row by row, with the JSON fallbacks of
   * AlignCell. The caller's rows are a value and stay as they were.
   */
  method AlignToStart(decode: string -> Result<Cell>, rows: seq<Row>, column: string, startColumn: string)
    returns (res: Result<seq<Row>>)
    ensures res.Ok? ==> HasColumn(rows, column) && HasColumn(rows, startColumn)
    ensures res.Ok? ==> |res.value| == |rows|
    ensures res.Ok? ==> forall i :: 0 <= i < |rows| ==>
              res.value[i].Keys == rows[i].Keys + {AlignedName(column, startColumn)} &&
              AlignCell(decode, rows[i][column], rows[i][startColumn]) == Ok(res.value[i][AlignedName(column, startColumn)])
    ensures res.Ok? ==> forall i, c :: 0 <= i < |rows| && c in rows[i] && c != AlignedName(column, startColumn) ==>
              res.value[i][c] == rows[i][c]
    ensures HasColumn(rows, column) && HasColumn(rows, startColumn) ==>
              (res.Err? <==> exists i :: 0 <= i < |rows| && AlignCell(decode, rows[i][column], rows[i][startColumn]).Err?)
  {
    var colname := AlignedName(column, startColumn);
    var alignedList: seq<Cell> := [];
    var idx := 0;
    while idx < |rows|
      invariant 0 <= idx <= |rows|
      invariant AlignedColumn(decode, rows[..idx], column, startColumn) == Ok(alignedList)
    {
      PrefixOfPrefix(rows, idx + 1, idx);
      if column !in rows[idx] {
        AlignedColumnPrefixError(decode, rows, idx + 1, column, startColumn);
        return Err(KeyError(column));
      }
      if startColumn !in rows[idx] {
        AlignedColumnPrefixError(decode, rows, idx + 1, column, startColumn);
        return Err(KeyError(startColumn));
      }
      var aligned := Apply(Minus, rows[idx][column], rows[idx][startColumn]);
      if aligned.Err? {
        aligned := MinusParsedLeft(decode, rows[idx][column], rows[idx][startColumn]);
      }
      if aligned.Err? {
        aligned := MinusParsedRight(decode, rows[idx][column], rows[idx][startColumn]);
      }
      if aligned.Err? {
        AlignedColumnPrefixError(decode, rows, idx + 1, column, startColumn);
        return Err(aligned.error);
      }
      alignedList := alignedList + [aligned.value];
      idx := idx + 1;
    }
    WholePrefix(rows);
    WithColumnFrame(rows, colname, alignedList);
    res := Ok(WithColumn(rows, colname, alignedList));
  }

  /** An aligned column that fails on a prefix of the rows fails on all of them. */
  lemma {:induction false} AlignedColumnPrefixError(decode: string -> Result<Cell>, rows: seq<Row>, k: nat,
                                                    col: string, ref: string)
    requires k <= |rows|
    requires AlignedColumn(decode, rows[..k], col, ref).Err?
    ensures AlignedColumn(decode, rows, col, ref).Err?
    decreases |rows| - k
  {
    if k < |rows| {
      PrefixOfPrefix(rows, k + 1, k);
      AlignedColumnPrefixError(decode, rows, k + 1, col, ref);
    } else {
      WholePrefix(rows);
    }
  }

  // ---------------------------------------------------------------------------
  // align_to_multiple_values
  // ---------------------------------------------------------------------------

  /** One block of align_to_multiple_values: every value of `xs` minus `v`. */
  function Block(xs: seq<real>, v: real): (b: seq<real>)
    ensures |b| == |xs|
    ensures forall j :: 0 <= j < |xs| ==> b[j] == xs[j] - v
  {
    seq(|xs|, j requires 0 <= j < |xs| => xs[j] - v)
  }

  /** The blocks for the reference values `refs`, concatenated in reference order. */
  function MultiAligned(xs: seq<real>, refs: seq<real>): seq<real>
  {
    if refs == [] then []
    else MultiAligned(xs, refs[..|refs| - 1]) + Block(xs, refs[|refs| - 1])
  }

  /** The result holds one block of |xs| values per reference value. */
  lemma {:induction false} MultiAlignedLength(xs: seq<real>, refs: seq<real>)
    ensures |MultiAligned(xs, refs)| == |xs| * |refs|
  {
    if refs != [] {
      var n := |refs| - 1;
      MultiAlignedLength(xs, refs[..n]);
      assert |xs| * |refs| == |xs| * n + |xs|;
    }
  }

  /** Block k of the result occupies positions k*|xs| .. (k+1)*|xs| and holds xs - refs[k]. */
  lemma {:induction false} MultiAlignedAt(xs: seq<real>, refs: seq<real>, k: nat, j: nat)
    requires k < |refs| && j < |xs|
    ensures k * |xs| + j < |MultiAligned(xs, refs)|
    ensures MultiAligned(xs, refs)[k * |xs| + j] == xs[j] - refs[k]
  {
    var n := |refs| - 1;
    var front := refs[..n];
    MultiAlignedLength(xs, front);
    BlockOffset(k, n, |xs|, j);
    ConcatAt(MultiAligned(xs, front), Block(xs, refs[n]), k * |xs| + j);
    if k < n {
      MultiAlignedAt(xs, front, k, j);
      assert front[k] == refs[k];
    }
  }

  /** Position k * w + j lies in block k: before block n when k < n, at offset j of it when k == n. */
  lemma BlockOffset(k: nat, n: nat, w: nat, j: nat)
    requires k <= n && j < w
    ensures k < n ==> k * w + j < w * n
    ensures k == n ==> k * w + j == w * n + j
  {
    if k < n {
      assert k * w + j < k * w + w == (k + 1) * w <= n * w;
    }
  }

  /**
   * The cell align_to_multiple_values computes for one row: for every value
   * of the reference array, the row's array minus that value. With no
   * reference values the row's own column is never read and the cell is empty.
   */
  function MultiAlignedCell(r: Row, column: string, multi: string): Result<Cell>
  {
    if multi !in r then Err(KeyError(multi))
    else if !r[multi].Vec? then Err(TypeError)
    else if r[multi].xs == [] then Ok(Vec([]))
    else if column !in r then Err(KeyError(column))
    else if !r[column].Vec? then Err(TypeError)
    else Ok(Vec(MultiAligned(r[column].xs, r[multi].xs)))
  }

  /** The whole new column, or the first row's error. */
  function MultiAlignedColumn(rows: seq<Row>, column: string, multi: string): (r: Result<seq<Cell>>)
    ensures r.Ok? ==> |r.value| == |rows|
    ensures r.Ok? ==> forall i :: 0 <= i < |rows| ==> MultiAlignedCell(rows[i], column, multi) == Ok(r.value[i])
  {
    if rows == [] then Ok([])
    else
      var n := |rows| - 1;
      match MultiAlignedColumn(rows[..n], column, multi)
      case Err(e) => Err(e)
      case Ok(front) =>
        match MultiAlignedCell(rows[n], column, multi)
        case Err(e) => Err(e)
        case Ok(c) => Ok(front + [c])
  }

  /**
   * align_to_multiple_values: adds "{column}_to_{multi}" to the caller's frame
   * in place. On an error (raised before the assignment) the frame is unchanged.
   */
  method AlignToMultipleValues(df: DataFrame, column: string, multi: string) returns (err: Option<Error>)
    modifies df`rows
    ensures MultiAlignedColumn(old(df.rows), column, multi).Ok? ==>
              err.None? && df.rows == WithColumn(old(df.rows), AlignedName(column, multi),
                                                 MultiAlignedColumn(old(df.rows), column, multi).value)
    ensures MultiAlignedColumn(old(df.rows), column, multi).Err? ==>
              err == Some(MultiAlignedColumn(old(df.rows), column, multi).error) && df.rows == old(df.rows)
  {
    var rows := df.rows;
    var colname := AlignedName(column, multi);
    var alignedList: seq<Cell> := [];
    var idx := 0;
    while idx < |rows|
      invariant 0 <= idx <= |rows| && df.rows == rows
      invariant MultiAlignedColumn(rows[..idx], column, multi) == Ok(alignedList)
    {
      var r := rows[idx];
      if multi !in r || !r[multi].Vec? {
        err := Some(if multi !in r then KeyError(multi) else TypeError);
        MultiAlignedStepError(rows, idx, column, multi);
        MultiAlignedPrefixError(rows, idx + 1, column, multi);
        return;
      }
      var refs := r[multi].xs;
      var indexList: seq<real> := [];
      var k := 0;
      while k < |refs|
        invariant 0 <= k <= |refs| && df.rows == rows
        invariant k > 0 ==> column in r && r[column].Vec?
        invariant k > 0 ==> indexList == MultiAligned(r[column].xs, refs[..k])
        invariant k == 0 ==> indexList == []
      {
        if column !in r || !r[column].Vec? {
          err := Some(if column !in r then KeyError(column) else TypeError);
          MultiAlignedStepError(rows, idx, column, multi);
          MultiAlignedPrefixError(rows, idx + 1, column, multi);
          return;
        }
        var xs := r[column].xs;
        PrefixOfPrefix(refs, k + 1, k);
        indexList := indexList + Block(xs, refs[k]);
        k := k + 1;
      }
      WholePrefix(refs);
      MultiAlignedStepOk(rows, idx, column, multi, Vec(indexList));
      alignedList := alignedList + [Vec(indexList)];
      idx := idx + 1;
    }
    WholePrefix(rows);
    df.rows := WithColumn(rows, colname, alignedList);
    err := None;
  }

  /** A row whose cell fails makes the column of the rows up to it fail with that error. */
  lemma MultiAlignedStepError(rows: seq<Row>, i: nat, column: string, multi: string)
    requires i < |rows| && MultiAlignedColumn(rows[..i], column, multi).Ok?
    requires MultiAlignedCell(rows[i], column, multi).Err?
    ensures MultiAlignedColumn(rows[..i + 1], column, multi) == Err(MultiAlignedCell(rows[i], column, multi).error)
  {
    PrefixOfPrefix(rows, i + 1, i);
  }

  /** A row whose cell succeeds extends the column of the rows before it by that cell. */
  lemma MultiAlignedStepOk(rows: seq<Row>, i: nat, column: string, multi: string, c: Cell)
    requires i < |rows| && MultiAlignedColumn(rows[..i], column, multi).Ok?
    requires MultiAlignedCell(rows[i], column, multi) == Ok(c)
    ensures MultiAlignedColumn(rows[..i + 1], column, multi) == Ok(MultiAlignedColumn(rows[..i], column, multi).value + [c])
  {
    PrefixOfPrefix(rows, i + 1, i);
  }

  lemma {:induction false} MultiAlignedPrefixError(rows: seq<Row>, k: nat, column: string, multi: string)
    requires k <= |rows|
    requires MultiAlignedColumn(rows[..k], column, multi).Err?
    ensures MultiAlignedColumn(rows, column, multi) == MultiAlignedColumn(rows[..k], column, multi)
    decreases |rows| - k
  {
    if k < |rows| {
      PrefixOfPrefix(rows, k + 1, k);
      MultiAlignedPrefixError(rows, k + 1, column, multi);
    } else {
      WholePrefix(rows);
    }
  }

  // ---------------------------------------------------------------------------
  // causal_rate
  // ---------------------------------------------------------------------------

  /** n_trials: a Python int (one divisor for every point) or a per-point sequence. */
  datatype TrialCount = Uniform(n: int) | PerPoint(counts: seq<int>)

  predicate PositiveCounts(nTrials: TrialCount)
  {
    match nTrials
    case Uniform(n) => n > 0
    case PerPoint(cs) => forall i :: 0 <= i < |cs| ==> cs[i] > 0
  }

  /** len(np.arange(-windowStart, windowEnd, 1)). */
  function AxisLength(windowStart: int, windowEnd: int): nat
  {
    if windowEnd > -windowStart then windowStart + windowEnd else 0
  }

  /** np.arange(-windowStart, windowEnd, 1): consecutive integers from -windowStart. */
  function TimeAxis(windowStart: int, windowEnd: int): seq<int>
  {
    seq(AxisLength(windowStart, windowEnd), i => -windowStart + i)
  }

  /** tau = t - onset + 1/alpha. */
  function Tau(t: int, onset: real, alpha: real): real
    requires alpha != 0.0
  {
    t as real - onset + 1.0 / alpha
  }

  /** An onset is within the causal kernel's reach of `t` when its tau is positive. */
  predicate Reaches(onset: real, t: int, alpha: real)
    requires alpha != 0.0
  {
    Tau(t, onset, alpha) > 0.0
  }

  /** sum(causal): the kernel summed over the onsets whose tau is positive. */
  function KernelSum(onsets: seq<real>, t: int, alpha: real, kernel: real -> real): real
    requires alpha != 0.0
  {
    if onsets == [] then 0.0
    else (if Reaches(onsets[0], t, alpha) then kernel(Tau(t, onsets[0], alpha)) else 0.0)
         + KernelSum(onsets[1..], t, alpha, kernel)
  }

  /** The divisor causal_rate uses at axis index i. */
  function DivisorAt(nTrials: TrialCount, i: nat): int
    requires nTrials.PerPoint? ==> i < |nTrials.counts|
  {
    match nTrials
    case Uniform(n) => n
    case PerPoint(cs) => cs[i]
  }

  /** rate at one axis point: 1000 * sum(causal) / n_trials. */
  function RateAt(onsets: seq<real>, t: int, alpha: real, kernel: real -> real, divisor: int): real
    requires alpha != 0.0 && divisor > 0
  {
    KernelSum(onsets, t, alpha, kernel) * 1000.0 / divisor as real
  }

  /** The whole rate curve causal_rate computes, one value per axis point. */
  function RateCurve(onsets: seq<real>, windowStart: int, windowEnd: int, nTrials: TrialCount,
                     alpha: real, kernel: real -> real): seq<real>
    requires alpha != 0.0 && PositiveCounts(nTrials)
    requires nTrials.PerPoint? ==> |nTrials.counts| == AxisLength(windowStart, windowEnd)
  {
    seq(AxisLength(windowStart, windowEnd),
        i requires 0 <= i < AxisLength(windowStart, windowEnd) =>
          RateAt(onsets, -windowStart + i, alpha, kernel, DivisorAt(nTrials, i)))
  }

  /**
   * causal_rate: returns (rate, scale). The axis runs over the integers of
   * [-lockWindowStart, lockWindowEnd); a per-point trial count whose length
   * differs from the axis raises ValueError. An empty onset list gives a rate
   * of exactly 0 everywhere.
   */
  method CausalRate(moveOnset: seq<real>, lockWindowStart: int, lockWindowEnd: int,
                    nTrials: TrialCount, alpha: real, kernel: real -> real)
    returns (res: Result<(seq<real>, seq<int>)>)
    requires alpha != 0.0
    requires PositiveCounts(nTrials)
    ensures res.Err? <==> nTrials.PerPoint? && |nTrials.counts| != AxisLength(lockWindowStart, lockWindowEnd)
    ensures res.Err? ==> res.error == ValueError
    ensures res.Ok? ==> |res.value.0| == |res.value.1| == AxisLength(lockWindowStart, lockWindowEnd)
    ensures res.Ok? ==> forall i :: 0 <= i < |res.value.1| ==> res.value.1[i] == -lockWindowStart + i
    ensures res.Ok? ==> forall i :: 0 <= i < |res.value.0| ==>
              res.value.0[i] == RateAt(moveOnset, -lockWindowStart + i, alpha, kernel, DivisorAt(nTrials, i))
    ensures res.Ok? ==> res.value == (RateCurve(moveOnset, lockWindowStart, lockWindowEnd, nTrials, alpha, kernel),
                                      TimeAxis(lockWindowStart, lockWindowEnd))
    ensures res.Ok? && moveOnset == [] ==> forall i :: 0 <= i < |res.value.0| ==> res.value.0[i] == 0.0
  {
    var scale := TimeAxis(lockWindowStart, lockWindowEnd);
    var divisors: seq<int>;
    match nTrials {
      case Uniform(n) =>
        divisors := seq(|scale|, _ => n);
      case PerPoint(cs) =>
        if |cs| != |scale| {
          return Err(ValueError);
        }
        divisors := cs;
    }
    var rate: seq<real> := [];
    for idx := 0 to |scale|
      invariant |rate| == idx
      invariant forall i :: 0 <= i < idx ==>
                  rate[i] == RateAt(moveOnset, scale[i], alpha, kernel, DivisorAt(nTrials, i))
    {
      var causal := KernelSum(moveOnset, scale[idx], alpha, kernel);
      rate := rate + [causal * 1000.0 / divisors[idx] as real];
    }
    assert rate == RateCurve(moveOnset, lockWindowStart, lockWindowEnd, nTrials, alpha, kernel);
    res := Ok((rate, scale));
  }

  /** With a kernel that is non-negative where it is applied, the summed kernel is non-negative. */
  lemma {:induction false} KernelSumNonNegative(onsets: seq<real>, t: int, alpha: real, kernel: real -> real)
    requires alpha != 0.0
    requires forall tau :: tau > 0.0 ==> kernel(tau) >= 0.0
    ensures KernelSum(onsets, t, alpha, kernel) >= 0.0
  {
    if onsets != [] {
      KernelSumNonNegative(onsets[1..], t, alpha, kernel);
    }
  }

  /** Every rate is non-negative for a non-negative kernel and a positive trial count. */
  lemma RateNonNegative(onsets: seq<real>, t: int, alpha: real, kernel: real -> real, divisor: int)
    requires alpha != 0.0 && divisor > 0
    requires forall tau :: tau > 0.0 ==> kernel(tau) >= 0.0
    ensures RateAt(onsets, t, alpha, kernel, divisor) >= 0.0
  {
    KernelSumNonNegative(onsets, t, alpha, kernel);
  }

  /** The onsets within the kernel's reach of t, in their original order. */
  function Reaching(onsets: seq<real>, t: int, alpha: real): (r: seq<real>)
    requires alpha != 0.0
    ensures forall x :: x in r <==> x in onsets && Reaches(x, t, alpha)
  {
    if onsets == [] then []
    else (if Reaches(onsets[0], t, alpha) then [onsets[0]] else []) + Reaching(onsets[1..], t, alpha)
  }

  /** The kernel sum over a concatenation is the sum of the two sums. */
  lemma {:induction false} KernelSumConcat(a: seq<real>, b: seq<real>, t: int, alpha: real, kernel: real -> real)
    requires alpha != 0.0
    ensures KernelSum(a + b, t, alpha, kernel) == KernelSum(a, t, alpha, kernel) + KernelSum(b, t, alpha, kernel)
  {
    if a == [] {
      assert a + b == b;
    } else {
      assert (a + b)[0] == a[0];
      assert (a + b)[1..] == a[1..] + b;
      KernelSumConcat(a[1..], b, t, alpha, kernel);
    }
  }

  /**
   * Causality: the rate at t depends only on the onsets before t + 1/alpha;
   * onsets at or after that time never contribute.
   */
  lemma {:induction false} KernelSumOnlyReaching(onsets: seq<real>, t: int, alpha: real, kernel: real -> real)
    requires alpha != 0.0
    ensures KernelSum(onsets, t, alpha, kernel) == KernelSum(Reaching(onsets, t, alpha), t, alpha, kernel)
  {
    if onsets != [] {
      var head := if Reaches(onsets[0], t, alpha) then [onsets[0]] else [];
      KernelSumOnlyReaching(onsets[1..], t, alpha, kernel);
      KernelSumConcat(head, Reaching(onsets[1..], t, alpha), t, alpha, kernel);
      if Reaches(onsets[0], t, alpha) {
        assert KernelSum(head, t, alpha, kernel) == kernel(Tau(t, onsets[0], alpha)) by {
          assert head[1..] == [];
        }
      }
    }
  }

  /** Adding onsets at or after t + 1/alpha leaves the rate at t unchanged. */
  lemma LateOnsetsIgnored(onsets: seq<real>, late: seq<real>, t: int, alpha: real, kernel: real -> real)
    requires alpha != 0.0
    requires forall i :: 0 <= i < |late| ==> late[i] >= t as real + 1.0 / alpha
    ensures KernelSum(onsets + late, t, alpha, kernel) == KernelSum(onsets, t, alpha, kernel)
  {
    KernelSumConcat(onsets, late, t, alpha, kernel);
    KernelSumOnlyReaching(late, t, alpha, kernel);
    assert Reaching(late, t, alpha) == [];
  }
}
