/**
 * The per-subject movement-rate pipeline of analysis/subject_level_stats.py:
 * condition filtering and naming, the trial-coverage histogram, masking,
 * baseline and null-condition normalization, and the dip metrics (minimum,
 * magnitude, bottom, latency), driven by the stateful OneSubjectInhibition.
 *
 * Rates are exact reals. Where numpy would produce NaN or infinity (a mean
 * over an empty window, a division by a zero baseline) the model keeps the
 * curve as `Undefined`, and the metrics of such a curve raise IndexError as
 * np.where(data == nan) does in get_latency.
 */
module SubjectLevelStats {
  import opened Wrappers
  import opened HelperFuncs
  import opened Sequences

  /** One row of the preprocessed trial table, reduced to the columns the rate pipeline reads. */
  datatype Trial = Trial(
    flashShown: int,
    stimJumped: int,
    onsets: seq<real>,    // touchOnTime_to_trialOnTime_to_flashOnTime_aligned
    trialOn: real,        // trialOnTime_to_trialOnTime_to_flashOnTime_aligned
    trialEnd: real)       // trialEndTime_to_trialOnTime_to_flashOnTime_aligned

  // ---------------------------------------------------------------------------
  // Condition names and filter_by_conditions
  // ---------------------------------------------------------------------------

  /** The keys of empty_property_array, in their dictionary order. */
  const ConditionKeys: seq<string> :=
    ["all", "flash", "no_flash", "shift", "no_shift",
     "flash_shift", "flash_no_shift", "no_flash_shift", "no_flash_no_shift"]

  /** The condition values run_rate_pipeline iterates: None, 0, 1. */
  const FlagValues: seq<Option<int>> := [None, Some(0), Some(1)]

  /** Python's `[no_label, label][v]`, with negative indices counting from the end. */
  function PickLabel(noLabel: string, yesLabel: string, v: int): Result<string>
  {
    if v == 0 || v == -2 then Ok(noLabel)
    else if v == 1 || v == -1 then Ok(yesLabel)
    else Err(IndexError)
  }

  /** The naming rule: both labels joined by "_", else whichever is set, else "all". */
  function JoinNames(flashName: string, shiftName: string): string
  {
    var name := if flashName == "" || shiftName == "" then flashName + shiftName
                else flashName + "_" + shiftName;
    if name == "" then "all" else name
  }

  predicate Matches(t: Trial, flash: Option<int>, jump: Option<int>)
  {
    (flash.None? || t.flashShown == flash.value) && (jump.None? || t.stimJumped == jump.value)
  }

  /** The rows matching each set flag, in their original order. */
  function Select(data: seq<Trial>, flash: Option<int>, jump: Option<int>): (r: seq<Trial>)
    ensures |r| <= |data|
  {
    if data == [] then []
    else Select(data[..|data| - 1], flash, jump) +
         (if Matches(data[|data| - 1], flash, jump) then [data[|data| - 1]] else [])
  }

  /** The selection holds exactly the rows that match the set flags. */
  lemma {:induction false} SelectMembers(data: seq<Trial>, flash: Option<int>, jump: Option<int>)
    ensures forall t :: t in Select(data, flash, jump) <==> t in data && Matches(t, flash, jump)
  {
    if data != [] {
      var n := |data| - 1;
      SelectMembers(data[..n], flash, jump);
      assert data == data[..n] + [data[n]];
    }
  }

  /** filter_by_conditions: the matching rows and the condition's canonical name. */
  function FilterByConditions(data: seq<Trial>, flash: Option<int>, jump: Option<int>): Result<(seq<Trial>, string)>
  {
    var flashName := if flash.None? then Ok("") else PickLabel("no_flash", "flash", flash.value);
    var shiftName := if jump.None? then Ok("") else PickLabel("no_shift", "shift", jump.value);
    if flashName.Err? then Err(flashName.error)
    else if shiftName.Err? then Err(shiftName.error)
    else Ok((Select(data, flash, jump), JoinNames(flashName.value, shiftName.value)))
  }

  predicate IsBinaryFlag(v: Option<int>)
  {
    v.None? || v.value == 0 || v.value == 1
  }

  /** The name of the condition (flash, jump) for None/0/1 flags. */
  function NameOf(flash: Option<int>, jump: Option<int>): string
    requires IsBinaryFlag(flash) && IsBinaryFlag(jump)
  {
    FilterByConditions([], flash, jump).value.1
  }

  /**
   * The naming rule for None/0/1 flags: both set gives
   * "{no_flash|flash}_{no_shift|shift}", one set gives its own label,
   * neither gives "all"; the filter never fails on such flags.
   */
  lemma NamingRule(data: seq<Trial>, flash: Option<int>, jump: Option<int>)
    requires IsBinaryFlag(flash) && IsBinaryFlag(jump)
    ensures FilterByConditions(data, flash, jump).Ok?
    ensures FilterByConditions(data, flash, jump).value.1 == NameOf(flash, jump)
    ensures flash.Some? && jump.Some? ==>
              NameOf(flash, jump) == (if flash.value == 1 then "flash" else "no_flash") + "_" +
                                     (if jump.value == 1 then "shift" else "no_shift")
    ensures flash.Some? && jump.None? ==> NameOf(flash, jump) == (if flash.value == 1 then "flash" else "no_flash")
    ensures flash.None? && jump.Some? ==> NameOf(flash, jump) == (if jump.value == 1 then "shift" else "no_shift")
    ensures flash.None? && jump.None? ==> NameOf(flash, jump) == "all"
  {
  }

  /** The (flash, jump) pair run_rate_pipeline visits k-th: flash in the outer loop, jump in the inner. */
  function Combo(k: nat): (Option<int>, Option<int>)
    requires k < 9
  {
    (FlagValues[k / 3], FlagValues[k % 3])
  }

  /** The condition names in the order run_rate_pipeline produces them. */
  const PipelineKeys: seq<string> :=
    ["all", "no_shift", "shift", "no_flash", "no_flash_no_shift", "no_flash_shift",
     "flash", "flash_no_shift", "flash_shift"]

  /** The k-th iteration of the nested loop writes the k-th pipeline key. */
  lemma PipelineNames(k: nat)
    requires k < 9
    ensures IsBinaryFlag(Combo(k).0) && IsBinaryFlag(Combo(k).1)
    ensures NameOf(Combo(k).0, Combo(k).1) == PipelineKeys[k]
  {
    if k == 0 { assert NameOf(None, None) == "all"; }
    else if k == 1 { assert NameOf(None, Some(0)) == "no_shift"; }
    else if k == 2 { assert NameOf(None, Some(1)) == "shift"; }
    else if k == 3 { assert NameOf(Some(0), None) == "no_flash"; }
    else if k == 4 { assert NameOf(Some(0), Some(0)) == "no_flash_no_shift"; }
    else if k == 5 { assert NameOf(Some(0), Some(1)) == "no_flash_shift"; }
    else if k == 6 { assert NameOf(Some(1), None) == "flash"; }
    else if k == 7 { assert NameOf(Some(1), Some(0)) == "flash_no_shift"; }
    else { assert NameOf(Some(1), Some(1)) == "flash_shift"; }
  }

  /** A pipeline key differs from every later one in its length or in its first or fourth letter. */
  lemma PipelineKeyUnique(i: nat)
    requires i < 9
    ensures forall j :: i < j < 9 ==> PipelineKeys[i] != PipelineKeys[j]
  {
    var k := PipelineKeys;
    assert |k[0]| == 3 && |k[1]| == 8 && |k[2]| == 5 && |k[3]| == 8 && |k[4]| == 17;
    assert |k[5]| == 14 && |k[6]| == 5 && |k[7]| == 14 && |k[8]| == 11;
    assert k[1][3] == 's' && k[3][3] == 'f';
    assert k[2][0] == 's' && k[6][0] == 'f';
    assert k[5][0] == 'n' && k[7][0] == 'f';
  }

  /**
   * The nine iterations write nine different keys, and these are exactly the
   * keys of empty_property_array, so the pipeline fills every entry once.
   */
  lemma PipelineKeysAreTheConditionKeys()
    ensures forall i, j :: 0 <= i < j < 9 ==> PipelineKeys[i] != PipelineKeys[j]
    ensures multiset(PipelineKeys) == multiset(ConditionKeys)
  {
    forall i | 0 <= i < 9
      ensures forall j :: i < j < 9 ==> PipelineKeys[i] != PipelineKeys[j]
    {
      PipelineKeyUnique(i);
    }
    PipelineKeysPermuteConditionKeys();
  }

  lemma PipelineKeysPermuteConditionKeys()
    ensures multiset(PipelineKeys) == multiset(ConditionKeys)
  {
    var p, c := PipelineKeys, ConditionKeys;
    assert p == [c[0]] + [c[4]] + [c[3]] + [c[2]] + [c[8]] + [c[7]] + [c[1]] + [c[6]] + [c[5]];
    assert c == [c[0]] + [c[1]] + [c[2]] + [c[3]] + [c[4]] + [c[5]] + [c[6]] + [c[7]] + [c[8]];
  }

  /** The k-th iteration selects the trials of its pair and names them by its key. */
  lemma FilterForKey(data: seq<Trial>, k: nat)
    requires k < 9
    ensures FilterByConditions(data, Combo(k).0, Combo(k).1) == Ok((Select(data, Combo(k).0, Combo(k).1), PipelineKeys[k]))
    ensures PipelineKeys[k] in ConditionKeys
  {
    PipelineNames(k);
    NamingRule(data, Combo(k).0, Combo(k).1);
    PipelineKeyIsConditionKey(k);
  }

  lemma PipelineKeyIsConditionKey(k: nat)
    requires k < 9
    ensures PipelineKeys[k] in ConditionKeys
  {
    PipelineKeysPermuteConditionKeys();
    assert PipelineKeys[k] in multiset(PipelineKeys);
  }

  predicate BinaryFlags(data: seq<Trial>)
  {
    forall i :: 0 <= i < |data| ==>
      (data[i].flashShown == 0 || data[i].flashShown == 1) && (data[i].stimJumped == 0 || data[i].stimJumped == 1)
  }

  /**
   * On 0/1 flags the four fully specified conditions partition the trials:
   * every trial lands in exactly one of them, so as multisets they add up to
   * the "all" condition.
   */
  lemma {:induction false} FullConditionsPartition(data: seq<Trial>)
    requires BinaryFlags(data)
    ensures Partitioned(data)
    ensures Select(data, None, None) == data
  {
    if data != [] {
      BinaryFlagsFront(data);
      FullConditionsPartition(data[..|data| - 1]);
      PartitionLast(data);
    }
  }

  lemma BinaryFlagsFront(data: seq<Trial>)
    requires data != [] && BinaryFlags(data)
    ensures BinaryFlags(data[..|data| - 1])
  {
    var front := data[..|data| - 1];
    forall i | 0 <= i < |front| ensures front[i] == data[i] { }
  }

  /** The partition of all trials but the last extends to all of them. */
  lemma PartitionLast(data: seq<Trial>)
    requires data != [] && BinaryFlags(data)
    requires Partitioned(data[..|data| - 1]) && Select(data[..|data| - 1], None, None) == data[..|data| - 1]
    ensures Partitioned(data) && Select(data, None, None) == data
  {
    var n := |data| - 1;
    var front, t := data[..n], data[n];
    SelectLast(data, Some(1), Some(1));
    SelectLast(data, Some(1), Some(0));
    SelectLast(data, Some(0), Some(1));
    SelectLast(data, Some(0), Some(0));
    SelectLast(data, None, None);
    LandsInOneCondition(t);
    RegroupSums(multiset(Select(front, Some(1), Some(1))), multiset(Select(front, Some(1), Some(0))),
                multiset(Select(front, Some(0), Some(1))), multiset(Select(front, Some(0), Some(0))),
                Pick(t, Some(1), Some(1)), Pick(t, Some(1), Some(0)), Pick(t, Some(0), Some(1)), Pick(t, Some(0), Some(0)));
    LastSplit(data);
  }

  /** The four fully specified selections, together, are the unfiltered one. */
  predicate Partitioned(data: seq<Trial>)
  {
    multiset(Select(data, Some(1), Some(1))) + multiset(Select(data, Some(1), Some(0))) +
    multiset(Select(data, Some(0), Some(1))) + multiset(Select(data, Some(0), Some(0)))
    == multiset(Select(data, None, None))
  }

  lemma RegroupSums<T>(a: multiset<T>, b: multiset<T>, c: multiset<T>, d: multiset<T>,
                       x: multiset<T>, y: multiset<T>, z: multiset<T>, w: multiset<T>)
    ensures (a + x) + (b + y) + (c + z) + (d + w) == (a + b + c + d) + (x + y + z + w)
  {
  }

  /** The trial as a one-element multiset when it matches the condition, else nothing. */
  function Pick(t: Trial, flash: Option<int>, jump: Option<int>): multiset<Trial>
  {
    if Matches(t, flash, jump) then multiset{t} else multiset{}
  }

  /** A trial with 0/1 flags matches exactly one of the four fully specified conditions. */
  lemma LandsInOneCondition(t: Trial)
    requires (t.flashShown == 0 || t.flashShown == 1) && (t.stimJumped == 0 || t.stimJumped == 1)
    ensures Pick(t, Some(1), Some(1)) + Pick(t, Some(1), Some(0)) + Pick(t, Some(0), Some(1)) + Pick(t, Some(0), Some(0))
            == Pick(t, None, None)
  {
  }

  /** Selecting from a sequence adds its last trial to the selection of the others exactly when it matches. */
  lemma SelectLast(data: seq<Trial>, flash: Option<int>, jump: Option<int>)
    requires data != []
    ensures multiset(Select(data, flash, jump)) ==
            multiset(Select(data[..|data| - 1], flash, jump)) + Pick(data[|data| - 1], flash, jump)
  {
  }

  // ---------------------------------------------------------------------------
  // get_trials_per_window
  // ---------------------------------------------------------------------------

  /** Python's round() on a float: to the nearest integer, ties to the even one. */
  function PyRound(x: real): (r: int)
    ensures x - 0.5 <= r as real <= x + 0.5
  {
    var f := x.Floor;
    var d := x - f as real;
    if d < 0.5 then f
    else if d > 0.5 then f + 1
    else if f % 2 == 0 then f else f + 1
  }

  /** np.arange(lo, hi, 1): the integers of [lo, hi). */
  function Range(lo: int, hi: int): (r: seq<int>)
    decreases hi - lo
  {
    if lo >= hi then [] else [lo] + Range(lo + 1, hi)
  }

  /** The integer range a trial covers: [round(trialOn), round(trialEnd)). */
  predicate Covers(t: Trial, v: int)
  {
    PyRound(t.trialOn) <= v < PyRound(t.trialEnd)
  }

  /** np.concatenate of every trial's range. */
  function ConcatRanges(data: seq<Trial>): seq<int>
  {
    if data == [] then []
    else ConcatRanges(data[..|data| - 1]) + Range(PyRound(data[|data| - 1].trialOn), PyRound(data[|data| - 1].trialEnd))
  }

  /**
   * Bin i of np.histogram over the edges first, first+1, ..., first+n: the
   * half-open [first+i, first+i+1), except the last bin, which is closed and
   * so also takes the value first+n.
   */
  predicate InBin(v: int, first: int, n: nat, i: nat)
  {
    (first + i <= v < first + i + 1) || (i + 1 == n && v == first + n)
  }

  function CountInBin(values: seq<int>, first: int, n: nat, i: nat): nat
  {
    if values == [] then 0
    else (if InBin(values[0], first, n, i) then 1 else 0) + CountInBin(values[1..], first, n, i)
  }

  /** The number of trials whose range contains v. */
  function Coverage(data: seq<Trial>, v: int): nat
  {
    if data == [] then 0
    else Coverage(data[..|data| - 1], v) + (if Covers(data[|data| - 1], v) then 1 else 0)
  }

  /**
   * get_trials_per_window: the histogram of all trial ranges over the axis,
   * each count floored at 1. No trials at all makes np.concatenate raise
   * ValueError; an empty axis makes scale[-1] raise IndexError.
   */
  function TrialsPerWindow(data: seq<Trial>, scale: seq<int>): Result<seq<int>>
  {
    if data == [] then Err(ValueError)
    else if scale == [] then Err(IndexError)
    else
      var values := ConcatRanges(data);
      Ok(seq(|scale|, i requires 0 <= i < |scale| => Max1(CountInBin(values, scale[0], |scale|, i))))
  }

  function Max1(x: int): int
  {
    if x < 1 then 1 else x
  }

  lemma {:induction false} CountInBinConcat(a: seq<int>, b: seq<int>, first: int, n: nat, i: nat)
    ensures CountInBin(a + b, first, n, i) == CountInBin(a, first, n, i) + CountInBin(b, first, n, i)
  {
    if a == [] {
      assert a + b == b;
    } else {
      assert (a + b)[0] == a[0];
      assert (a + b)[1..] == a[1..] + b;
      CountInBinConcat(a[1..], b, first, n, i);
    }
  }

  /** A range [lo, hi) puts one value into bin i per bin value it contains. */
  lemma {:induction false} CountInBinRange(lo: int, hi: int, first: int, n: nat, i: nat)
    requires i < n
    ensures CountInBin(Range(lo, hi), first, n, i) ==
              (if lo <= first + i < hi then 1 else 0) +
              (if i + 1 == n && lo <= first + n < hi then 1 else 0)
    decreases hi - lo
  {
    if lo < hi {
      assert Range(lo, hi)[0] == lo;
      assert Range(lo, hi)[1..] == Range(lo + 1, hi);
      CountInBinRange(lo + 1, hi, first, n, i);
    }
  }

  /**
   * The histogram counts trials: bin i holds the number of trials whose range
   * contains axis point first+i, and the closed last bin adds those whose
   * range contains first+n, the point just past the axis.
   */
  lemma {:induction false} HistogramCountsTrials(data: seq<Trial>, first: int, n: nat, i: nat)
    requires i < n
    ensures CountInBin(ConcatRanges(data), first, n, i) ==
              Coverage(data, first + i) + (if i + 1 == n then Coverage(data, first + n) else 0)
  {
    if data != [] {
      var m := |data| - 1;
      var t := data[m];
      HistogramCountsTrials(data[..m], first, n, i);
      CountInBinConcat(ConcatRanges(data[..m]), Range(PyRound(t.trialOn), PyRound(t.trialEnd)), first, n, i);
      CountInBinRange(PyRound(t.trialOn), PyRound(t.trialEnd), first, n, i);
    }
  }

  /**
   * What get_trials_per_window promises: one entry per axis point, each the
   * number of trials covering that point (the last also counting the point
   * window_end), floored at 1, so every entry is at least 1.
   */
  lemma TrialsPerWindowCounts(data: seq<Trial>, windowStart: int, windowEnd: int)
    requires data != [] && AxisLength(windowStart, windowEnd) > 0
    ensures TrialsPerWindow(data, TimeAxis(windowStart, windowEnd)).Ok?
    ensures |TrialsPerWindow(data, TimeAxis(windowStart, windowEnd)).value| == AxisLength(windowStart, windowEnd)
    ensures forall i :: 0 <= i < AxisLength(windowStart, windowEnd) ==>
              TrialsPerWindow(data, TimeAxis(windowStart, windowEnd)).value[i] >= 1 &&
              TrialsPerWindow(data, TimeAxis(windowStart, windowEnd)).value[i] ==
                Max1(Coverage(data, -windowStart + i) +
                     (if i + 1 == AxisLength(windowStart, windowEnd) then Coverage(data, windowEnd) else 0))
  {
    var scale := TimeAxis(windowStart, windowEnd);
    var n := |scale|;
    forall i | 0 <= i < n
      ensures TrialsPerWindow(data, scale).value[i] ==
                Max1(Coverage(data, -windowStart + i) + (if i + 1 == n then Coverage(data, windowEnd) else 0))
    {
      HistogramCountsTrials(data, scale[0], n, i);
    }
  }

  // ---------------------------------------------------------------------------
  // compute_onsets, compute_rates (masking)
  // ---------------------------------------------------------------------------

  /** np.concatenate of the trials' onset arrays; with no trials it raises ValueError. */
  function ConcatOnsets(data: seq<Trial>): Result<seq<real>>
  {
    if data == [] then Err(ValueError) else Ok(AllOnsets(data))
  }

  function AllOnsets(data: seq<Trial>): seq<real>
  {
    if data == [] then [] else AllOnsets(data[..|data| - 1]) + data[|data| - 1].onsets
  }

  /** rate * (n_trials[name] > cutoff): the scalar total keeps or zeroes the whole curve. */
  function Mask(rate: seq<real>, total: int, cutoff: int): (r: seq<real>)
    ensures |r| == |rate|
  {
    seq(|rate|, i requires 0 <= i < |rate| => if total > cutoff then rate[i] else 0.0)
  }

  /** Masking either leaves the curve as it is or zeroes all of it. */
  lemma MaskAllOrNothing(rate: seq<real>, total: int, cutoff: int)
    ensures total > cutoff ==> Mask(rate, total, cutoff) == rate
    ensures total <= cutoff ==> forall i :: 0 <= i < |rate| ==> Mask(rate, total, cutoff)[i] == 0.0
  {
    if total > cutoff {
      assert Mask(rate, total, cutoff) == rate;
    }
  }

  // ---------------------------------------------------------------------------
  // compute_baseline
  // ---------------------------------------------------------------------------

  /** An axis point strictly inside the pre-event window (timeWindow, 0). */
  predicate InBaselineWindow(t: int, timeWindow: int)
  {
    timeWindow < t < 0
  }

  function WindowSum(scale: seq<int>, timeWindow: int, rates: seq<real>): real
    requires |rates| == |scale|
  {
    if scale == [] then 0.0
    else WindowSum(scale[..|scale| - 1], timeWindow, rates[..|scale| - 1]) +
         (if InBaselineWindow(scale[|scale| - 1], timeWindow) then rates[|scale| - 1] else 0.0)
  }

  function WindowCount(scale: seq<int>, timeWindow: int): nat
  {
    if scale == [] then 0
    else WindowCount(scale[..|scale| - 1], timeWindow) + (if InBaselineWindow(scale[|scale| - 1], timeWindow) then 1 else 0)
  }

  /**
   * compute_baseline: the mean rate over the axis points strictly between
   * time_window_for_baseline and 0; None where np.mean of an empty selection
   * is NaN.
   */
  function ComputeBaseline(scale: seq<int>, timeWindow: int, rates: seq<real>): Option<real>
    requires |rates| == |scale|
  {
    var n := WindowCount(scale, timeWindow);
    if n == 0 then None else Some(WindowSum(scale, timeWindow, rates) / n as real)
  }

  /** Element-wise division by a scalar. */
  function Divide(rates: seq<real>, d: real): (r: seq<real>)
    requires d != 0.0
    ensures |r| == |rates|
  {
    seq(|rates|, i requires 0 <= i < |rates| => rates[i] / d)
  }

  lemma {:induction false} WindowSumScales(scale: seq<int>, timeWindow: int, rates: seq<real>, d: real)
    requires |rates| == |scale| && d != 0.0
    ensures WindowSum(scale, timeWindow, Divide(rates, d)) == WindowSum(scale, timeWindow, rates) / d
  {
    if scale != [] {
      var n := |scale| - 1;
      DividePrefix(rates, d, n);
      WindowSumScales(scale[..n], timeWindow, rates[..n], d);
      var last := if InBaselineWindow(scale[n], timeWindow) then rates[n] else 0.0;
      SumOverDivisor(WindowSum(scale[..n], timeWindow, rates[..n]), last, d);
    }
  }

  lemma DividePrefix(rates: seq<real>, d: real, n: nat)
    requires d != 0.0 && n <= |rates|
    ensures Divide(rates, d)[..n] == Divide(rates[..n], d)
  {
  }

  lemma SumOverDivisor(a: real, b: real, d: real)
    requires d != 0.0
    ensures a / d + b / d == (a + b) / d
  {
  }

  /**
   * Dividing a curve by a constant divides its baseline by that constant; in
   * particular a curve normalized by its own baseline has baseline 1.
   */
  lemma BaselineNormalizationIdempotent(scale: seq<int>, timeWindow: int, rates: seq<real>)
    requires |rates| == |scale|
    requires ComputeBaseline(scale, timeWindow, rates).Some?
    requires ComputeBaseline(scale, timeWindow, rates).value != 0.0
    ensures ComputeBaseline(scale, timeWindow, Divide(rates, ComputeBaseline(scale, timeWindow, rates).value)) == Some(1.0)
  {
    var b := ComputeBaseline(scale, timeWindow, rates).value;
    var n := WindowCount(scale, timeWindow) as real;
    var total := WindowSum(scale, timeWindow, rates);
    WindowSumScales(scale, timeWindow, rates, b);
    MeanOfScaled(total, n, b);
  }

  /** If b is the mean total / n and b is not 0, then (total / b) / n is 1. */
  lemma MeanOfScaled(total: real, n: real, b: real)
    requires n > 0.0 && b == total / n && b != 0.0
    ensures (total / b) / n == 1.0
  {
    assert total == b * n;
    assert total / b == n;
  }

  lemma {:induction false} WindowSumNonNegative(scale: seq<int>, timeWindow: int, rates: seq<real>)
    requires |rates| == |scale|
    requires forall i :: 0 <= i < |rates| ==> rates[i] >= 0.0
    ensures WindowSum(scale, timeWindow, rates) >= 0.0
  {
    if scale != [] {
      WindowSumNonNegative(scale[..|scale| - 1], timeWindow, rates[..|scale| - 1]);
    }
  }

  /** The baseline of a non-negative curve is non-negative. */
  lemma BaselineNonNegative(scale: seq<int>, timeWindow: int, rates: seq<real>)
    requires |rates| == |scale|
    requires forall i :: 0 <= i < |rates| ==> rates[i] >= 0.0
    requires ComputeBaseline(scale, timeWindow, rates).Some?
    ensures ComputeBaseline(scale, timeWindow, rates).value >= 0.0
  {
    WindowSumNonNegative(scale, timeWindow, rates);
  }

  // ---------------------------------------------------------------------------
  // normalize_rates_to_null_condition
  // ---------------------------------------------------------------------------

  /** null_rates[null_rates <= 1] = 1: every entry at least 1, entries above 1 kept. */
  function Clamp(nullRates: seq<real>): (r: seq<real>)
    ensures |r| == |nullRates|
    ensures forall i :: 0 <= i < |r| ==> r[i] >= 1.0
  {
    seq(|nullRates|, i requires 0 <= i < |nullRates| => if nullRates[i] <= 1.0 then 1.0 else nullRates[i])
  }

  /** rates / clamped null rates, point by point. */
  function NullNormalized(rates: seq<real>, nullRates: seq<real>): (r: seq<real>)
    requires |rates| == |nullRates|
    ensures |r| == |rates|
  {
    var c := Clamp(nullRates);
    seq(|rates|, i requires 0 <= i < |rates| => rates[i] / c[i])
  }

  /**
   * Every clamped denominator is at least 1, so the quotient keeps the rate's
   * sign and never exceeds it in size, points where the null curve is at most
   * 1 keep their rate, and masked (zero) points stay zero.
   */
  lemma NullNormalizedBounds(rates: seq<real>, nullRates: seq<real>, i: nat)
    requires |rates| == |nullRates| && i < |rates|
    ensures NullNormalized(rates, nullRates)[i] * Clamp(nullRates)[i] == rates[i]
    ensures rates[i] >= 0.0 ==> 0.0 <= NullNormalized(rates, nullRates)[i] <= rates[i]
    ensures nullRates[i] <= 1.0 ==> NullNormalized(rates, nullRates)[i] == rates[i]
    ensures rates[i] == 0.0 ==> NullNormalized(rates, nullRates)[i] == 0.0
  {
    var c := Clamp(nullRates)[i];
    var q := NullNormalized(rates, nullRates)[i];
    assert q == rates[i] / c;
    assert q * c == rates[i];
    if rates[i] >= 0.0 {
      assert q >= 0.0;
      assert q <= q * c;
    }
  }

  /** The null condition normalized by itself is 1 wherever it exceeds 1, and never above 1. */
  lemma NullConditionNormalizedByItself(nullRates: seq<real>)
    ensures forall i :: 0 <= i < |nullRates| ==> NullNormalized(nullRates, nullRates)[i] <= 1.0
    ensures forall i :: 0 <= i < |nullRates| && nullRates[i] > 1.0 ==> NullNormalized(nullRates, nullRates)[i] == 1.0
  {
  }

  // ---------------------------------------------------------------------------
  // get_bottom_of_dip and get_latency
  // ---------------------------------------------------------------------------

  function CountBelow(rates: seq<real>, threshold: real): (r: nat)
    ensures r <= |rates|
  {
    if rates == [] then 0
    else CountBelow(rates[..|rates| - 1], threshold) + (if rates[|rates| - 1] < threshold then 1 else 0)
  }

  /** The indices np.where(rates < threshold) reports. */
  function IndicesBelow(rates: seq<real>, threshold: real): set<nat>
  {
    set i: nat | i < |rates| && rates[i] < threshold
  }

  /** Counting the samples below the threshold counts exactly the indices np.where reports. */
  lemma {:induction false} CountBelowIndices(rates: seq<real>, threshold: real)
    ensures CountBelow(rates, threshold) == |IndicesBelow(rates, threshold)|
  {
    if rates == [] {
      assert IndicesBelow(rates, threshold) == {};
    } else {
      var n := |rates| - 1;
      var front := rates[..n];
      CountBelowIndices(front, threshold);
      if rates[n] < threshold {
        assert IndicesBelow(rates, threshold) == IndicesBelow(front, threshold) + {n};
      } else {
        assert IndicesBelow(rates, threshold) == IndicesBelow(front, threshold);
      }
    }
  }

  /**
   * get_bottom_of_dip: the number of samples below the minimum plus 10% of the
   * distance from the minimum up to the baseline, i.e. the length of the
   * index array np.where returns for them.
   */
  function BottomOfDip(rates: seq<real>, minimum: real, baseline: real): (r: nat)
    ensures r <= |rates|
    ensures r == |IndicesBelow(rates, minimum + (baseline - minimum) * 0.1)|
  {
    CountBelowIndices(rates, minimum + (baseline - minimum) * 0.1);
    CountBelow(rates, minimum + (baseline - minimum) * 0.1)
  }

  predicate IsMinimum(rates: seq<real>, m: real)
  {
    m in rates && forall i :: 0 <= i < |rates| ==> m <= rates[i]
  }

  /** When the minimum lies below the baseline, the dip has at least its minimum sample. */
  lemma BottomOfDipNonEmpty(rates: seq<real>, minimum: real, baseline: real)
    requires IsMinimum(rates, minimum) && minimum < baseline
    ensures 1 <= BottomOfDip(rates, minimum, baseline) <= |rates|
  {
    var k :| 0 <= k < |rates| && rates[k] == minimum;
    assert k in IndicesBelow(rates, minimum + (baseline - minimum) * 0.1);
  }

  /** The first index at which `data` equals `m` (np.where(data == m)[0][0] when there is one). */
  function FirstIndexOf<T(==)>(data: seq<T>, m: T): (r: Option<nat>)
    ensures r.Some? ==> r.value < |data| && data[r.value] == m &&
                        forall k :: 0 <= k < r.value ==> data[k] != m
    ensures r.None? <==> m !in data
  {
    if data == [] then None
    else if data[0] == m then Some(0)
    else match FirstIndexOf(data[1..], m)
      case None => None
      case Some(j) => Some(j + 1)
  }

  /**
   * get_latency: the time of the first sample equal to the minimum.
   * np.where(...)[0][0] on no match, or a time axis too short, raises IndexError.
   */
  function GetLatency(data: seq<real>, timeScale: seq<int>, minimum: real): (r: Result<int>)
    ensures r.Err? ==> r.error == IndexError
  {
    match FirstIndexOf(data, minimum)
    case None => Err(IndexError)
    case Some(j) => if j < |timeScale| then Ok(timeScale[j]) else Err(IndexError)
  }

  /**
   * get_latency succeeds exactly when the minimum occurs in the data early
   * enough for the time axis, and then returns the time of its first
   * occurrence.
   */
  lemma LatencyOfFirstMinimum(data: seq<real>, timeScale: seq<int>, minimum: real)
    ensures GetLatency(data, timeScale, minimum).Ok? <==>
              minimum in data && FirstIndexOf(data, minimum).value < |timeScale|
    ensures GetLatency(data, timeScale, minimum).Ok? ==>
              exists j :: 0 <= j < |data| && j < |timeScale| && data[j] == minimum &&
                GetLatency(data, timeScale, minimum).value == timeScale[j] &&
                forall k :: 0 <= k < j ==> data[k] != minimum
  {
  }

  // ---------------------------------------------------------------------------
  // run_metrics_pipeline, one condition
  // ---------------------------------------------------------------------------

  datatype MetricsRow = MetricsRow(
    flashShown: int, stimJumped: int, minimum: real, magnitude: real, bottom: nat, latency: int)

  /** A normalized curve, or the NaN/inf curve numpy produces when the divisor was 0 or NaN. */
  datatype Curve = Defined(xs: seq<real>) | Undefined(length: nat)
  {
    function Length(): nat
    {
      match this
      case Defined(xs) => |xs|
      case Undefined(n) => n
    }
  }

  /** Python's `sub in s` for strings. */
  function HasSubstring(s: string, sub: string): bool
    decreases |s|
  {
    |sub| <= |s| && (s[..|sub|] == sub || HasSubstring(s[1..], sub))
  }

  /** int(label not in key). */
  function FlagFromKey(key: string, negLabel: string): int
  {
    if HasSubstring(key, negLabel) then 0 else 1
  }

  /** The minimum of a non-empty sequence. */
  function Min(xs: seq<real>): (m: real)
    requires xs != []
    ensures IsMinimum(xs, m)
  {
    if |xs| == 1 then xs[0]
    else
      var rest := Min(xs[1..]);
      assert rest in xs[1..];
      if xs[0] <= rest then xs[0] else rest
  }

  /** Python slice bounds of a[s:e] for non-negative s, e. */
  function SliceLo(len: nat, s: nat): nat { if s < len then s else len }
  function SliceHi(len: nat, s: nat, e: nat): nat
  {
    var lo := SliceLo(len, s);
    if e < lo then lo else if e < len then e else len
  }

  function Slice<T>(xs: seq<T>, s: nat, e: nat): (r: seq<T>)
  {
    xs[SliceLo(|xs|, s)..SliceHi(|xs|, s, e)]
  }

  /**
   * The metrics row of one condition: the flags read from the key, then
   * minimum, magnitude, bottom and latency over the search window. An unset
   * search bound raises IndexError, an empty window ValueError (np.min), and
   * an undefined (NaN) curve IndexError (get_latency).
   */
  function MetricsFor(key: string, curve: Curve, scale: seq<int>, searchStart: Option<nat>, searchEnd: Option<nat>)
    : Result<MetricsRow>
  {
    if searchStart.None? || searchEnd.None? then Err(IndexError)
    else
      var s, e := searchStart.value, searchEnd.value;
      var len := curve.Length();
      if SliceLo(len, s) == SliceHi(len, s, e) then Err(ValueError)
      else match curve
        case Undefined(_) => Err(IndexError)
        case Defined(xs) =>
          var window := Slice(xs, s, e);
          var minimum := Min(window);
          match GetLatency(window, Slice(scale, s, e), minimum)
          case Err(err) => Err(err)
          case Ok(latency) =>
            Ok(MetricsRow(FlagFromKey(key, "no_flash"), FlagFromKey(key, "no_shift"), minimum,
                          1.0 - minimum, BottomOfDip(window, minimum, 1.0), latency))
  }

  /**
   * What one metrics row promises: the minimum is the smallest value of the
   * search window, magnitude is 1 - minimum, the latency is the time of the
   * minimum's first occurrence, and the bottom counts at least the minimum
   * whenever the dip goes below 1.
   */
  lemma MetricsRowFacts(key: string, xs: seq<real>, scale: seq<int>, s: nat, e: nat)
    requires |xs| == |scale|
    requires MetricsFor(key, Defined(xs), scale, Some(s), Some(e)).Ok?
    ensures var row := MetricsFor(key, Defined(xs), scale, Some(s), Some(e)).value;
            var window := Slice(xs, s, e);
            && IsMinimum(window, row.minimum)
            && row.magnitude == 1.0 - row.minimum
            && row.bottom <= |window|
            && (row.minimum < 1.0 ==> row.bottom >= 1)
            && exists j :: 0 <= j < |window| && window[j] == row.minimum && row.latency == Slice(scale, s, e)[j]
  {
    var window := Slice(xs, s, e);
    var row := MetricsFor(key, Defined(xs), scale, Some(s), Some(e)).value;
    LatencyOfFirstMinimum(window, Slice(scale, s, e), row.minimum);
    if row.minimum < 1.0 {
      BottomOfDipNonEmpty(window, row.minimum, 1.0);
    }
  }

  /** With exact arithmetic the minimum always recurs, so latency never fails on a defined curve on the axis. */
  lemma LatencyAlwaysFound(key: string, xs: seq<real>, scale: seq<int>, s: nat, e: nat)
    requires |xs| == |scale|
    requires SliceLo(|xs|, s) < SliceHi(|xs|, s, e)
    ensures MetricsFor(key, Defined(xs), scale, Some(s), Some(e)).Ok?
  {
    var window := Slice(xs, s, e);
    var m := Min(window);
    assert |Slice(scale, s, e)| == |window|;
    LatencyOfFirstMinimum(window, Slice(scale, s, e), m);
  }

  /**
   * The flags run_metrics_pipeline reads back from a key agree with the
   * filter that produced it: flashShown is 0 exactly for the keys made with
   * flashShown == 0, stimJumped 0 exactly for those made with stimJumped ==
   * 0; a condition that left a flag unset reads it as 1.
   */
  lemma KeyFlags(k: nat)
    requires k < 9
    ensures FlagFromKey(PipelineKeys[k], "no_flash") == (if Combo(k).0 == Some(0) then 0 else 1)
    ensures FlagFromKey(PipelineKeys[k], "no_shift") == (if Combo(k).1 == Some(0) then 0 else 1)
  {
    var keys := PipelineKeys;
    if k == 0 { assert keys[k] == "all"; UnnegatedKey("all"); }
    else if k == 1 { assert keys[k] == "no_shift"; NoShiftFlags(); }
    else if k == 2 { assert keys[k] == "shift"; UnnegatedKey("shift"); }
    else if k == 3 { assert keys[k] == "no_flash"; NoFlashFlags(); }
    else if k == 4 { assert keys[k] == "no_flash_no_shift"; NoFlashNoShiftFlags(); }
    else if k == 5 { assert keys[k] == "no_flash_shift"; NoFlashShiftFlags(); }
    else if k == 6 { assert keys[k] == "flash"; UnnegatedKey("flash"); }
    else if k == 7 { assert keys[k] == "flash_no_shift"; FlashNoShiftFlags(); }
    else { assert keys[k] == "flash_shift"; UnnegatedKey("flash_shift"); }
  }

  lemma UnnegatedKey(key: string)
    requires 'n' !in key
    ensures FlagFromKey(key, "no_flash") == 1 && FlagFromKey(key, "no_shift") == 1
  {
    NotSubstringWithoutHead(key, "no_flash");
    NotSubstringWithoutHead(key, "no_shift");
  }

  lemma NoShiftFlags()
    ensures FlagFromKey("no_shift", "no_flash") == 1 && FlagFromKey("no_shift", "no_shift") == 0
  {
    var s := "no_shift";
    assert s[..8] == s;
    assert s[..8] != "no_flash" by { assert s[3] == 's'; }
  }

  lemma NoFlashFlags()
    ensures FlagFromKey("no_flash", "no_flash") == 0 && FlagFromKey("no_flash", "no_shift") == 1
  {
    var s := "no_flash";
    assert s[..8] == s;
    assert s[..8] != "no_shift" by { assert s[3] == 'f'; }
  }

  lemma NoFlashNoShiftFlags()
    ensures FlagFromKey("no_flash_no_shift", "no_flash") == 0 && FlagFromKey("no_flash_no_shift", "no_shift") == 0
  {
    var s := "no_flash_no_shift";
    assert s[..8] == "no_flash";
    assert s[9..][..8] == "no_shift";
    FoundInSuffix(s, "no_shift", 9);
  }

  lemma NoFlashShiftFlags()
    ensures FlagFromKey("no_flash_shift", "no_flash") == 0 && FlagFromKey("no_flash_shift", "no_shift") == 1
  {
    var s := "no_flash_shift";
    assert s[..8] == "no_flash";
    assert s[..8] != "no_shift" by { assert s[3] == 'f'; }
    NotSubstringWithoutHead(s[1..], "no_shift");
  }

  lemma FlashNoShiftFlags()
    ensures FlagFromKey("flash_no_shift", "no_flash") == 1 && FlagFromKey("flash_no_shift", "no_shift") == 0
  {
    var s := "flash_no_shift";
    var sub := "no_flash";
    assert s[6..] == "no_shift";
    assert s[6..][..8] != sub by { assert s[9] == 's'; }
    NotSubstringWithoutHead(s[6..][1..], sub);
    SkipPrefix(s, sub, 6);
    assert s[6..][..8] == "no_shift";
    FoundInSuffix(s, "no_shift", 6);
  }

  /** A string that lacks sub's first letter does not contain sub. */
  lemma {:induction false} NotSubstringWithoutHead(s: string, sub: string)
    requires sub != [] && sub[0] !in s
    ensures !HasSubstring(s, sub)
    decreases |s|
  {
    if |sub| <= |s| {
      assert s[..|sub|][0] == s[0];
      NotSubstringWithoutHead(s[1..], sub);
    }
  }

  /** A prefix with no occurrence of sub's first letter can be skipped. */
  lemma {:induction false} SkipPrefix(s: string, sub: string, k: nat)
    requires sub != [] && k <= |s| && sub[0] !in s[..k]
    ensures HasSubstring(s, sub) == HasSubstring(s[k..], sub)
    decreases k
  {
    if k > 0 {
      assert s[0] == s[..k][0];
      if |sub| <= |s| {
        assert s[..|sub|][0] == s[0];
      }
      assert s[1..][..k - 1] == s[..k][1..];
      assert s[1..][k - 1..] == s[k..];
      SkipPrefix(s[1..], sub, k - 1);
    }
  }

  lemma {:induction false} FoundInSuffix(s: string, sub: string, k: nat)
    requires k <= |s| && HasSubstring(s[k..], sub)
    ensures HasSubstring(s, sub)
    decreases k
  {
    if k > 0 {
      assert s[1..][k - 1..] == s[k..];
      FoundInSuffix(s[1..], sub, k - 1);
    }
  }

  // ---------------------------------------------------------------------------
  // Baseline normalization, as written and corrected
  // ---------------------------------------------------------------------------

  /**
   * rates / compute_baseline(...): a NaN baseline (empty window) or a zero one
   * turns the whole curve into NaN/inf.
   */
  function NormalizeToBaseline(scale: seq<int>, timeWindow: int, rates: seq<real>): (c: Curve)
    requires |rates| == |scale|
    ensures c.Length() == |rates|
    ensures c.Defined? <==> ComputeBaseline(scale, timeWindow, rates).Some? && ComputeBaseline(scale, timeWindow, rates).value != 0.0
  {
    match ComputeBaseline(scale, timeWindow, rates)
    case None => Undefined(|rates|)
    case Some(b) => if b == 0.0 then Undefined(|rates|) else Defined(Divide(rates, b))
  }

  /** The corrected normalization yields a curve whose own baseline is 1. */
  lemma NormalizedBaselineIsOne(scale: seq<int>, timeWindow: int, rates: seq<real>)
    requires |rates| == |scale|
    requires NormalizeToBaseline(scale, timeWindow, rates).Defined?
    ensures ComputeBaseline(scale, timeWindow, NormalizeToBaseline(scale, timeWindow, rates).xs) == Some(1.0)
  {
    BaselineNormalizationIdempotent(scale, timeWindow, rates);
  }

  /** How compute_rates leaves a rate: a Python list from causal_rate, or an ndarray after masking. */
  datatype StoredRate = PyList(xs: seq<real>) | NdArray(xs: seq<real>)

  /** compute_rates as written: only the masking step turns the list into an array. */
  function StoreRate(curve: seq<real>, maskRate: bool, total: int, cutoff: int): StoredRate
  {
    if maskRate then NdArray(Mask(curve, total, cutoff)) else PyList(curve)
  }

  /**
   * The normalization step of run_rate_pipeline as written: compute_baseline
   * indexes the rate with the index array of np.where, which a Python list
   * refuses with TypeError.
   */
  function NormalizeStoredRate(scale: seq<int>, timeWindow: int, r: StoredRate): Result<Curve>
    requires |r.xs| == |scale|
  {
    match r
    case PyList(_) => Err(TypeError)
    case NdArray(xs) => Ok(NormalizeToBaseline(scale, timeWindow, xs))
  }

  /**
   * With mask_rate=False the pipeline as written cannot normalize any
   * condition, whatever the data: the baseline step raises TypeError. With
   * masking it computes what the corrected normalization computes.
   */
  lemma UnmaskedPipelineRaises(scale: seq<int>, timeWindow: int, curve: seq<real>, total: int, cutoff: int)
    requires |curve| == |scale|
    ensures NormalizeStoredRate(scale, timeWindow, StoreRate(curve, false, total, cutoff)) == Err(TypeError)
    ensures NormalizeStoredRate(scale, timeWindow, StoreRate(curve, true, total, cutoff)) ==
              Ok(NormalizeToBaseline(scale, timeWindow, Mask(curve, total, cutoff)))
  {
  }

  // ---------------------------------------------------------------------------
  // Insertion-ordered dictionaries (the property arrays)
  // ---------------------------------------------------------------------------

  /** A Python dict: its entries and the order in which its keys were inserted. */
  datatype Dict<V> = Dict(keys: seq<string>, entries: map<string, V>)
  {
    predicate Valid()
    {
      (forall k :: k in keys ==> k in entries) && (forall k :: k in entries ==> k in keys) &&
      (forall i, j :: 0 <= i < j < |keys| ==> keys[i] != keys[j])
    }

    /** d[k] = v: an existing key keeps its place, a new one goes last. */
    function Set(k: string, v: V): (d: Dict<V>)
      ensures d.entries == entries[k := v]
      ensures k in entries ==> d.keys == keys
      ensures k !in entries ==> d.keys == keys + [k]
      ensures Valid() ==> d.Valid()
    {
      Dict(if k in entries then keys else keys + [k], entries[k := v])
    }
  }

  /** `d'` has the keys of `d`, in the same order, and differs from it at most under `name`. */
  predicate SameExcept<V(==)>(d: Dict<V>, d': Dict<V>, name: string)
  {
    d'.keys == d.keys &&
    (d'.entries == d.entries ||
     (name in d.entries && name in d'.entries && d'.entries == d.entries[name := d'.entries[name]]))
  }

  /** Every property array is a well-formed dict holding at least the nine condition keys. */
  predicate ValidArrays(nT: Dict<TrialCount>, pw: Dict<seq<int>>, on: Dict<seq<real>>, ra: Dict<seq<real>>,
                        nb: Dict<Curve>, nn: Dict<seq<real>>)
  {
    nT.Valid() && pw.Valid() && on.Valid() && ra.Valid() && nb.Valid() && nn.Valid() &&
    forall k :: k in ConditionKeys ==>
      k in nT.entries && k in pw.entries && k in on.entries && k in ra.entries && k in nb.entries && k in nn.entries
  }

  /** Changing entries under existing keys keeps the property arrays valid. */
  lemma ValidArraysKept(nT: Dict<TrialCount>, pw: Dict<seq<int>>, on: Dict<seq<real>>, ra: Dict<seq<real>>,
                        nb: Dict<Curve>, nn: Dict<seq<real>>,
                        nT': Dict<TrialCount>, pw': Dict<seq<int>>, on': Dict<seq<real>>, ra': Dict<seq<real>>,
                        nb': Dict<Curve>, name: string)
    requires ValidArrays(nT, pw, on, ra, nb, nn)
    requires SameExcept(nT, nT', name) && SameExcept(pw, pw', name) && SameExcept(on, on', name)
    requires SameExcept(ra, ra', name) && SameExcept(nb, nb', name)
    ensures ValidArrays(nT', pw', on', ra', nb', nn)
  {
  }

  /** Normalizing conditions to the null curve keeps the property arrays valid. */
  lemma NullNormalizedValid(nT: Dict<TrialCount>, pw: Dict<seq<int>>, on: Dict<seq<real>>, ra: Dict<seq<real>>,
                            nb: Dict<Curve>, nn: Dict<seq<real>>, keys: seq<string>, nullRates: seq<real>,
                            nn': Dict<seq<real>>)
    requires ValidArrays(nT, pw, on, ra, nb, nn) && forall k :: k in keys ==> k in ra.entries
    requires NormalizeAllToNull(nn, keys, ra.entries, nullRates) == Ok(nn')
    ensures ValidArrays(nT, pw, on, ra, nb, nn')
  {
    NormalizeAllToNullValid(nn, keys, ra.entries, nullRates);
  }

  /** A key of empty_property_array differs from every later one in its length or its first or fourth letter. */
  lemma ConditionKeyUnique(i: nat)
    requires i < 9
    ensures forall j :: i < j < 9 ==> ConditionKeys[i] != ConditionKeys[j]
  {
    var k := ConditionKeys;
    assert |k[0]| == 3 && |k[1]| == 5 && |k[2]| == 8 && |k[3]| == 5 && |k[4]| == 8;
    assert |k[5]| == 11 && |k[6]| == 14 && |k[7]| == 14 && |k[8]| == 17;
    assert k[1][0] == 'f' && k[3][0] == 's';
    assert k[2][3] == 'f' && k[4][3] == 's';
    assert k[6][0] == 'f' && k[7][0] == 'n';
  }

  lemma ConditionKeysDistinct()
    ensures forall i, j :: 0 <= i < j < |ConditionKeys| ==> ConditionKeys[i] != ConditionKeys[j]
  {
    forall i | 0 <= i < 9
      ensures forall j :: i < j < 9 ==> ConditionKeys[i] != ConditionKeys[j]
    {
      ConditionKeyUnique(i);
    }
  }

  /** empty_property_array.copy(): the nine keys, in order, each mapped to `empty`. */
  function EmptyPropertyArray<V>(empty: V): (d: Dict<V>)
    ensures d.Valid() && d.keys == ConditionKeys
    ensures forall k :: k in ConditionKeys ==> d.entries[k] == empty
  {
    ConditionKeysDistinct();
    Dict(ConditionKeys, map k | k in ConditionKeys :: empty)
  }

  // ---------------------------------------------------------------------------
  // Parameters and one condition of run_rate_pipeline
  // ---------------------------------------------------------------------------

  /** The entries of parameter_dict; None stands for a None value. */
  datatype Parameters = Parameters(
    alpha: Option<real>,
    minimumNCutoff: Option<int>,
    timeWindowForBaseline: Option<int>,
    windowStart: Option<int>,
    windowEnd: Option<int>,
    metricsSearchStart: Option<int>,
    metricsSearchEnd: Option<int>)

  /** Python's `value or default` on a float: None and 0.0 fall back to the default. */
  function OrReal(v: Option<real>, default: real): real
  {
    if v.None? || v.value == 0.0 then default else v.value
  }

  /** Python's `value or default` on an int: None and 0 fall back to the default. */
  function OrInt(v: Option<int>, default: int): int
  {
    if v.None? || v.value == 0 then default else v.value
  }

  /**
   * The `or` defaults never produce 0 from a non-zero default: an explicit 0
   * for alpha, the cutoff, the baseline window or either window bound is
   * replaced by the default, so alpha is never 0 and the axis never starts at 0.
   */
  lemma DefaultsNeverZero(p: Parameters)
    ensures OrReal(p.alpha, 0.02) != 0.0
    ensures OrInt(p.windowStart, 1000) != 0 && OrInt(p.windowEnd, 2000) != 0
    ensures p.windowStart == Some(0) ==> OrInt(p.windowStart, 1000) == 1000
    ensures p.alpha.Some? && p.alpha.value != 0.0 ==> OrReal(p.alpha, 0.02) == p.alpha.value
  {
  }

  /** np.where(scale == v)[0] reduced to its first entry; None where it is empty. */
  function SearchIndex(scale: seq<int>, v: Option<int>): Option<nat>
  {
    if v.None? then None else FirstIndexOf(scale, v.value)
  }

  /** On the consecutive axis the search bound v sits at index v + window_start. */
  lemma SearchIndexOnAxis(windowStart: int, windowEnd: int, v: int)
    ensures -windowStart <= v < windowEnd ==> SearchIndex(TimeAxis(windowStart, windowEnd), Some(v)) == Some(v + windowStart)
    ensures !(-windowStart <= v < windowEnd) ==> SearchIndex(TimeAxis(windowStart, windowEnd), Some(v)) == None
  {
    var scale := TimeAxis(windowStart, windowEnd);
    if -windowStart <= v < windowEnd {
      assert scale[v + windowStart] == v;
    }
  }

  /** What one iteration of run_rate_pipeline stores under the condition's name. */
  datatype ConditionOutcome = ConditionOutcome(
    name: string, count: int, onsets: seq<real>, perWindow: seq<int>, rate: seq<real>, normalized: Curve)

  /**
   * One iteration of run_rate_pipeline: filter, count, pool the onsets, count
   * the trials per axis point, compute (and mask) the rate, normalize it to
   * its baseline. The errors, in the order they can arise: an out-of-range
   * flag (IndexError), an empty condition (ValueError from np.concatenate),
   * an empty axis (IndexError from scale[-1]), an unknown normalization
   * (ValueError), an unmasked rate, which the baseline step cannot index
   * (TypeError). Only a masked rate gets through.
   */
  function ConditionPipeline(data: seq<Trial>, flash: Option<int>, jump: Option<int>,
                             windowStart: int, windowEnd: int, alpha: real, kernel: real -> real,
                             cutoff: int, timeWindow: int, maskRate: bool, normalization: string)
    : (r: Result<ConditionOutcome>)
    requires alpha != 0.0
    ensures r.Ok? ==> maskRate
    ensures r.Ok? ==> |r.value.rate| == |r.value.perWindow| == AxisLength(windowStart, windowEnd)
    ensures r.Ok? ==> r.value.normalized.Length() == AxisLength(windowStart, windowEnd)
  {
    var scale := TimeAxis(windowStart, windowEnd);
    match FilterByConditions(data, flash, jump)
    case Err(e) => Err(e)
    case Ok((selected, name)) =>
      if selected == [] then Err(ValueError)
      else if scale == [] then Err(IndexError)
      else
        match SelectionRate(selected, windowStart, windowEnd, alpha, kernel, cutoff, maskRate, normalization)
        case Err(e) => Err(e)
        case Ok(rate) =>
          TrialsPerWindowCounts(selected, windowStart, windowEnd);
          match NormalizeStoredRate(scale, timeWindow, if maskRate then NdArray(rate) else PyList(rate))
          case Err(e) => Err(e)
          case Ok(normalized) =>
            Ok(ConditionOutcome(name, |selected|, AllOnsets(selected), TrialsPerWindow(selected, scale).value, rate,
                                normalized))
  }

  /**
   * compute_rates for a non-empty selection on a non-empty axis: the causal
   * rate over the per-window counts or over the trial total, masked by the
   * total if asked. An unknown normalization raises ValueError.
   */
  function SelectionRate(selected: seq<Trial>, windowStart: int, windowEnd: int, alpha: real, kernel: real -> real,
                         cutoff: int, maskRate: bool, normalization: string): (r: Result<seq<real>>)
    requires alpha != 0.0 && selected != [] && AxisLength(windowStart, windowEnd) > 0
    ensures r.Ok? ==> |r.value| == AxisLength(windowStart, windowEnd)
    ensures r.Err? <==> normalization != "per_window" && normalization != "uniform"
  {
    if normalization != "per_window" && normalization != "uniform" then Err(ValueError)
    else
      TrialsPerWindowCounts(selected, windowStart, windowEnd);
      var perWindow := TrialsPerWindow(selected, TimeAxis(windowStart, windowEnd)).value;
      var n := if normalization == "per_window" then PerPoint(perWindow) else Uniform(|selected|);
      var curve := RateCurve(AllOnsets(selected), windowStart, windowEnd, n, alpha, kernel);
      Ok(if maskRate then Mask(curve, |selected|, cutoff) else curve)
  }

  /**
   * Every non-empty condition with 0/1 flags on a non-empty axis succeeds
   * under a known normalization when its rate is masked, with every
   * per-window count at least 1 and a non-negative rate when the kernel is
   * non-negative; unmasked, it raises TypeError at the baseline step.
   */
  lemma ConditionPipelineSucceeds(data: seq<Trial>, flash: Option<int>, jump: Option<int>,
                                  windowStart: int, windowEnd: int, alpha: real, kernel: real -> real,
                                  cutoff: int, timeWindow: int, maskRate: bool, normalization: string)
    requires alpha != 0.0 && IsBinaryFlag(flash) && IsBinaryFlag(jump)
    requires Select(data, flash, jump) != [] && AxisLength(windowStart, windowEnd) > 0
    requires normalization == "per_window" || normalization == "uniform"
    requires forall tau :: tau > 0.0 ==> kernel(tau) >= 0.0
    ensures var r := ConditionPipeline(data, flash, jump, windowStart, windowEnd, alpha, kernel,
                                       cutoff, timeWindow, maskRate, normalization);
            && (!maskRate ==> r == Err(TypeError))
            && (maskRate ==> r.Ok?
                             && r.value.name == NameOf(flash, jump)
                             && r.value.count == |Select(data, flash, jump)|
                             && (forall i :: 0 <= i < |r.value.perWindow| ==> r.value.perWindow[i] >= 1)
                             && (forall i :: 0 <= i < |r.value.rate| ==> r.value.rate[i] >= 0.0))
  {
    var selected := Select(data, flash, jump);
    ConditionPipelineOfSelection(data, flash, jump, windowStart, windowEnd, alpha, kernel,
                                 cutoff, timeWindow, maskRate, normalization);
    TrialsPerWindowCounts(selected, windowStart, windowEnd);
    SelectionRateNonNegative(selected, windowStart, windowEnd, alpha, kernel, cutoff, maskRate, normalization);
  }

  /**
   * With 0/1 flags the pipeline's outcome is made of the selected trials
   * under the rule's name when the rate is masked, and TypeError otherwise.
   */
  lemma ConditionPipelineOfSelection(data: seq<Trial>, flash: Option<int>, jump: Option<int>,
                                     windowStart: int, windowEnd: int, alpha: real, kernel: real -> real,
                                     cutoff: int, timeWindow: int, maskRate: bool, normalization: string)
    requires alpha != 0.0 && IsBinaryFlag(flash) && IsBinaryFlag(jump)
    requires Select(data, flash, jump) != [] && AxisLength(windowStart, windowEnd) > 0
    requires normalization == "per_window" || normalization == "uniform"
    ensures var selected := Select(data, flash, jump);
            var rate := SelectionRate(selected, windowStart, windowEnd, alpha, kernel, cutoff, maskRate, normalization);
            var r := ConditionPipeline(data, flash, jump, windowStart, windowEnd, alpha, kernel,
                                       cutoff, timeWindow, maskRate, normalization);
            rate.Ok? && (!maskRate ==> r == Err(TypeError)) &&
            (maskRate ==> r.Ok? && r.value.name == NameOf(flash, jump) && r.value.count == |selected| &&
                          r.value.perWindow == TrialsPerWindow(selected, TimeAxis(windowStart, windowEnd)).value &&
                          r.value.rate == rate.value)
  {
    NamingRule(data, flash, jump);
    assert FilterByConditions(data, flash, jump) == Ok((Select(data, flash, jump), NameOf(flash, jump)));
  }

  /** A non-negative kernel gives a non-negative rate, masked or not. */
  lemma SelectionRateNonNegative(selected: seq<Trial>, windowStart: int, windowEnd: int, alpha: real, kernel: real -> real,
                                 cutoff: int, maskRate: bool, normalization: string)
    requires alpha != 0.0 && selected != [] && AxisLength(windowStart, windowEnd) > 0
    requires normalization == "per_window" || normalization == "uniform"
    requires forall tau :: tau > 0.0 ==> kernel(tau) >= 0.0
    ensures forall i :: 0 <= i < AxisLength(windowStart, windowEnd) ==>
              SelectionRate(selected, windowStart, windowEnd, alpha, kernel, cutoff, maskRate, normalization).value[i] >= 0.0
  {
    TrialsPerWindowCounts(selected, windowStart, windowEnd);
    var perWindow := TrialsPerWindow(selected, TimeAxis(windowStart, windowEnd)).value;
    var n := if normalization == "per_window" then PerPoint(perWindow) else Uniform(|selected|);
    RateCurveNonNegative(AllOnsets(selected), windowStart, windowEnd, n, alpha, kernel);
  }

  lemma RateCurveNonNegative(onsets: seq<real>, windowStart: int, windowEnd: int, n: TrialCount,
                             alpha: real, kernel: real -> real)
    requires alpha != 0.0 && PositiveCounts(n)
    requires n.PerPoint? ==> |n.counts| == AxisLength(windowStart, windowEnd)
    requires forall tau :: tau > 0.0 ==> kernel(tau) >= 0.0
    ensures forall i :: 0 <= i < AxisLength(windowStart, windowEnd) ==>
              RateCurve(onsets, windowStart, windowEnd, n, alpha, kernel)[i] >= 0.0
  {
    forall i | 0 <= i < AxisLength(windowStart, windowEnd)
      ensures RateCurve(onsets, windowStart, windowEnd, n, alpha, kernel)[i] >= 0.0
    {
      RateNonNegative(onsets, -windowStart + i, alpha, kernel, DivisorAt(n, i));
    }
  }

  // ---------------------------------------------------------------------------
  // Null-condition normalization over all conditions, and the metrics table
  // ---------------------------------------------------------------------------

  /**
   * normalized_null_condition_rates after normalize_to_null_condition has
   * visited `keys` in order: each key's rate divided by the clamped null
   * curve. A rate of another length than the null curve fails the numpy
   * division with ValueError.
   */
  function NormalizeAllToNull(d: Dict<seq<real>>, keys: seq<string>, rates: map<string, seq<real>>, nullRates: seq<real>)
    : (r: Result<Dict<seq<real>>>)
    requires forall k :: k in keys ==> k in rates
    ensures r.Ok? <==> forall k :: k in keys ==> |rates[k]| == |nullRates|
    ensures r.Ok? ==> forall k :: k in keys ==> k in r.value.entries && r.value.entries[k] == NullNormalized(rates[k], nullRates)
    ensures r.Ok? ==> forall k :: k in d.entries && k !in keys ==> k in r.value.entries && r.value.entries[k] == d.entries[k]
  {
    if keys == [] then Ok(d)
    else
      var n := |keys| - 1;
      match NormalizeAllToNull(d, keys[..n], rates, nullRates)
      case Err(e) => Err(e)
      case Ok(front) =>
        if |rates[keys[n]]| != |nullRates| then Err(ValueError)
        else Ok(front.Set(keys[n], NullNormalized(rates[keys[n]], nullRates)))
  }

  /** Normalizing keeps the dict well formed: keys stay distinct and match the entries. */
  lemma {:induction false} NormalizeAllToNullValid(d: Dict<seq<real>>, keys: seq<string>,
                                                   rates: map<string, seq<real>>, nullRates: seq<real>)
    requires forall k :: k in keys ==> k in rates
    requires d.Valid() && NormalizeAllToNull(d, keys, rates, nullRates).Ok?
    ensures NormalizeAllToNull(d, keys, rates, nullRates).value.Valid()
  {
    if keys != [] {
      NormalizeAllToNullValid(d, keys[..|keys| - 1], rates, nullRates);
    }
  }

  /** The metrics rows of `keys`, in order; the first failing key's error otherwise. */
  function MetricsRows(keys: seq<string>, curves: map<string, Curve>, scale: seq<int>,
                       searchStart: Option<nat>, searchEnd: Option<nat>): Result<seq<MetricsRow>>
    requires forall k :: k in keys ==> k in curves
  {
    if keys == [] then Ok([])
    else
      var n := |keys| - 1;
      match MetricsRows(keys[..n], curves, scale, searchStart, searchEnd)
      case Err(e) => Err(e)
      case Ok(front) =>
        match MetricsFor(keys[n], curves[keys[n]], scale, searchStart, searchEnd)
        case Err(e) => Err(e)
        case Ok(row) => Ok(front + [row])
  }

  /** A row per key when the table is complete; row i holds key i's metrics. */
  lemma {:induction false} MetricsRowsPerKey(keys: seq<string>, curves: map<string, Curve>, scale: seq<int>,
                                             searchStart: Option<nat>, searchEnd: Option<nat>)
    requires forall k :: k in keys ==> k in curves
    requires MetricsRows(keys, curves, scale, searchStart, searchEnd).Ok?
    ensures |MetricsRows(keys, curves, scale, searchStart, searchEnd).value| == |keys|
    ensures forall i :: 0 <= i < |keys| ==>
              MetricsFor(keys[i], curves[keys[i]], scale, searchStart, searchEnd) ==
              Ok(MetricsRows(keys, curves, scale, searchStart, searchEnd).value[i])
  {
    MetricsRowsLength(keys, curves, scale, searchStart, searchEnd);
    forall i | 0 <= i < |keys|
      ensures MetricsFor(keys[i], curves[keys[i]], scale, searchStart, searchEnd) ==
              Ok(MetricsRows(keys, curves, scale, searchStart, searchEnd).value[i])
    {
      MetricsRowAt(keys, curves, scale, searchStart, searchEnd, i);
    }
  }

  lemma {:induction false} MetricsRowsLength(keys: seq<string>, curves: map<string, Curve>, scale: seq<int>,
                                             searchStart: Option<nat>, searchEnd: Option<nat>)
    requires forall k :: k in keys ==> k in curves
    requires MetricsRows(keys, curves, scale, searchStart, searchEnd).Ok?
    ensures |MetricsRows(keys, curves, scale, searchStart, searchEnd).value| == |keys|
  {
    if keys != [] {
      MetricsRowsLength(keys[..|keys| - 1], curves, scale, searchStart, searchEnd);
    }
  }

  lemma {:induction false} MetricsRowAt(keys: seq<string>, curves: map<string, Curve>, scale: seq<int>,
                                        searchStart: Option<nat>, searchEnd: Option<nat>, i: nat)
    requires forall k :: k in keys ==> k in curves
    requires MetricsRows(keys, curves, scale, searchStart, searchEnd).Ok?
    requires i < |keys|
    ensures i < |MetricsRows(keys, curves, scale, searchStart, searchEnd).value|
    ensures MetricsFor(keys[i], curves[keys[i]], scale, searchStart, searchEnd) ==
            Ok(MetricsRows(keys, curves, scale, searchStart, searchEnd).value[i])
  {
    var n := |keys| - 1;
    var all := MetricsRows(keys, curves, scale, searchStart, searchEnd);
    var front := MetricsRows(keys[..n], curves, scale, searchStart, searchEnd);
    var row := MetricsFor(keys[n], curves[keys[n]], scale, searchStart, searchEnd);
    assert front.Ok? && row.Ok? && all.value == front.value + [row.value];
    MetricsRowsLength(keys[..n], curves, scale, searchStart, searchEnd);
    AppendedAt(front.value, row.value, i);
    if i < n {
      MetricsRowAt(keys[..n], curves, scale, searchStart, searchEnd, i);
      assert keys[..n][i] == keys[i];
    }
  }

  /** Extending the keys by one whose row succeeds extends the table by that row. */
  lemma MetricsRowsStep(keys: seq<string>, curves: map<string, Curve>, scale: seq<int>,
                        searchStart: Option<nat>, searchEnd: Option<nat>, i: nat)
    requires i < |keys| && forall k :: k in keys ==> k in curves
    requires MetricsRows(keys[..i], curves, scale, searchStart, searchEnd).Ok?
    ensures var row := MetricsFor(keys[i], curves[keys[i]], scale, searchStart, searchEnd);
            && (row.Ok? ==> MetricsRows(keys[..i + 1], curves, scale, searchStart, searchEnd) ==
                             Ok(MetricsRows(keys[..i], curves, scale, searchStart, searchEnd).value + [row.value]))
            && (row.Err? ==> MetricsRows(keys[..i + 1], curves, scale, searchStart, searchEnd) == Err(row.error))
  {
    PrefixOfPrefix(keys, i + 1, i);
  }

  /** Once a prefix of the keys fails, the whole table fails with the same error. */
  lemma {:induction false} MetricsRowsFirstError(keys: seq<string>, curves: map<string, Curve>, scale: seq<int>,
                                                 searchStart: Option<nat>, searchEnd: Option<nat>, j: nat)
    requires j <= |keys| && forall k :: k in keys ==> k in curves
    requires MetricsRows(keys[..j], curves, scale, searchStart, searchEnd).Err?
    ensures MetricsRows(keys, curves, scale, searchStart, searchEnd) ==
            MetricsRows(keys[..j], curves, scale, searchStart, searchEnd)
  {
    if j == |keys| {
      WholePrefix(keys);
    } else {
      var n := |keys| - 1;
      PrefixOfPrefix(keys, n, j);
      MetricsRowsFirstError(keys[..n], curves, scale, searchStart, searchEnd, j);
    }
  }

  /** Once a prefix of the keys fails, normalizing all of them fails with the same error. */
  lemma {:induction false} NormalizeAllToNullFirstError(d: Dict<seq<real>>, keys: seq<string>,
                                                        rates: map<string, seq<real>>, nullRates: seq<real>, j: nat)
    requires j <= |keys| && forall k :: k in keys ==> k in rates
    requires NormalizeAllToNull(d, keys[..j], rates, nullRates).Err?
    ensures NormalizeAllToNull(d, keys, rates, nullRates) == NormalizeAllToNull(d, keys[..j], rates, nullRates)
  {
    if j == |keys| {
      WholePrefix(keys);
    } else {
      var n := |keys| - 1;
      PrefixOfPrefix(keys, n, j);
      NormalizeAllToNullFirstError(d, keys[..n], rates, nullRates, j);
      NormalizeAllToNullFront(d, keys, rates, nullRates);
    }
  }

  /** A failing front makes the whole normalization fail with its error. */
  lemma NormalizeAllToNullFront(d: Dict<seq<real>>, keys: seq<string>, rates: map<string, seq<real>>, nullRates: seq<real>)
    requires keys != [] && forall k :: k in keys ==> k in rates
    requires NormalizeAllToNull(d, keys[..|keys| - 1], rates, nullRates).Err?
    ensures NormalizeAllToNull(d, keys, rates, nullRates) == NormalizeAllToNull(d, keys[..|keys| - 1], rates, nullRates)
  {
  }

  function AsCurves(d: Dict<seq<real>>): (c: Dict<Curve>)
    ensures c.keys == d.keys && c.entries.Keys == d.entries.Keys
    ensures forall k :: k in d.entries ==> c.entries[k] == Defined(d.entries[k])
  {
    Dict(d.keys, map k | k in d.entries :: Defined(d.entries[k]))
  }

  /**
   * normalize_rates_to_null_condition on the array copy it is given: the copy
   * is clamped in place, then the rates are divided by it.
   */
  method NormalizeRatesToNullCondition(rates: seq<real>, nullRates: array<real>) returns (r: Result<seq<real>>)
    modifies nullRates
    ensures nullRates[..] == Clamp(old(nullRates[..]))
    ensures |rates| == nullRates.Length ==> r == Ok(NullNormalized(rates, old(nullRates[..])))
    ensures |rates| != nullRates.Length ==> r == Err(ValueError)
  {
    forall i | 0 <= i < nullRates.Length && nullRates[i] <= 1.0 {
      nullRates[i] := 1.0;
    }
    assert nullRates[..] == Clamp(old(nullRates[..]));
    if |rates| != nullRates.Length {
      return Err(ValueError);
    }
    var clamped := nullRates[..];
    r := Ok(seq(|rates|, i requires 0 <= i < |rates| => rates[i] / clamped[i]));
  }

  // ---------------------------------------------------------------------------
  // OneSubjectInhibition
  // ---------------------------------------------------------------------------

  /**
   * The analysis object of one subject: its settings, fixed at construction,
   * and the property arrays its pipelines fill in place, one entry per
   * condition.
   */
  class OneSubjectInhibition {
    const parameters: Parameters
    const preprocessedTrialData: seq<Trial>
    const kernel: real -> real
    const alpha: real := OrReal(parameters.alpha, 0.02)
    const minimumNCutoff: int := OrInt(parameters.minimumNCutoff, 20)
    const timeWindowForBaseline: int := OrInt(parameters.timeWindowForBaseline, -100)
    const windowStart: int := OrInt(parameters.windowStart, 1000)
    const windowEnd: int := OrInt(parameters.windowEnd, 2000)
    const scale: seq<int> := TimeAxis(windowStart, windowEnd)
    const metricsSearchStart: Option<nat> := SearchIndex(scale, parameters.metricsSearchStart)
    const metricsSearchEnd: Option<nat> := SearchIndex(scale, parameters.metricsSearchEnd)

    var nTrials: Dict<TrialCount>
    var nTrialsPerWindow: Dict<seq<int>>
    var onsets: Dict<seq<real>>
    var rates: Dict<seq<real>>
    var normalizedBaselineRates: Dict<Curve>
    var normalizedNullConditionRates: Dict<seq<real>>
    var metrics: seq<MetricsRow>

    /** Every property array is a well-formed dict holding at least the nine condition keys. */
    predicate Valid()
      reads this`nTrials, this`nTrialsPerWindow, this`onsets, this`rates, this`normalizedBaselineRates,
            this`normalizedNullConditionRates
    {
      ValidArrays(nTrials, nTrialsPerWindow, onsets, rates, normalizedBaselineRates, normalizedNullConditionRates)
    }

    /**
     * The settings take their `or` defaults, every property array starts as
     * the nine keys mapped to an empty list, and the metrics table is empty.
     */
    constructor (parameters: Parameters, preprocessedTrialData: seq<Trial>, kernel: real -> real)
      ensures this.parameters == parameters && this.preprocessedTrialData == preprocessedTrialData
      ensures this.kernel == kernel
      ensures Valid()
      ensures nTrials == EmptyPropertyArray(PerPoint([]))
      ensures nTrialsPerWindow == EmptyPropertyArray([])
      ensures onsets == EmptyPropertyArray([]) && rates == EmptyPropertyArray([])
      ensures normalizedBaselineRates == EmptyPropertyArray(Defined([]))
      ensures normalizedNullConditionRates == EmptyPropertyArray([])
      ensures metrics == []
    {
      this.parameters := parameters;
      this.preprocessedTrialData := preprocessedTrialData;
      this.kernel := kernel;
      nTrials := EmptyPropertyArray(PerPoint([]));
      nTrialsPerWindow := EmptyPropertyArray([]);
      onsets := EmptyPropertyArray([]);
      rates := EmptyPropertyArray([]);
      normalizedBaselineRates := EmptyPropertyArray(Defined([]));
      normalizedNullConditionRates := EmptyPropertyArray([]);
      metrics := [];
    }

    /** The outcome of the pipeline iteration for the k-th (flash, jump) pair. */
    function Outcome(k: nat, maskRate: bool, normalization: string): Result<ConditionOutcome>
      requires k < 9
    {
      DefaultsNeverZero(parameters);
      ConditionPipeline(preprocessedTrialData, Combo(k).0, Combo(k).1, windowStart, windowEnd, alpha, kernel,
                        minimumNCutoff, timeWindowForBaseline, maskRate, normalization)
    }

    /** The outcomes of the nine iterations, in loop order. */
    function Outcomes(maskRate: bool, normalization: string): (os: seq<Result<ConditionOutcome>>)
      ensures |os| == 9
    {
      seq(9, j requires 0 <= j < 9 => Outcome(j, maskRate, normalization))
    }

    /** The results of one condition sit under `key` in the given arrays. */
    static predicate Holds(key: string, o: ConditionOutcome, nT: Dict<TrialCount>, on: Dict<seq<real>>,
                    pw: Dict<seq<int>>, ra: Dict<seq<real>>, nb: Dict<Curve>)
    {
      key in nT.entries && nT.entries[key] == Uniform(o.count) &&
      key in on.entries && on.entries[key] == o.onsets &&
      key in pw.entries && pw.entries[key] == o.perWindow &&
      key in ra.entries && ra.entries[key] == o.rate &&
      key in nb.entries && nb.entries[key] == o.normalized
    }

    /** The first k outcomes succeeded and their results sit under their keys in the given arrays. */
    static predicate StoredIn(os: seq<Result<ConditionOutcome>>, k: nat, nT: Dict<TrialCount>, on: Dict<seq<real>>,
                       pw: Dict<seq<int>>, ra: Dict<seq<real>>, nb: Dict<Curve>)
      requires k <= |os| <= 9
    {
      forall j :: 0 <= j < k ==> os[j].Ok? && Holds(PipelineKeys[j], os[j].value, nT, on, pw, ra, nb)
    }

    /** The first k iterations succeeded and their results sit under their keys. */
    predicate Stored(k: nat, maskRate: bool, normalization: string)
      requires k <= 9
      reads this`nTrials, this`onsets, this`nTrialsPerWindow, this`rates, this`normalizedBaselineRates
    {
      StoredIn(Outcomes(maskRate, normalization), k, nTrials, onsets, nTrialsPerWindow, rates, normalizedBaselineRates)
    }

    /** Writing only under the k-th key keeps the results of the first k iterations. */
    static lemma StoredWrite(os: seq<Result<ConditionOutcome>>, k: nat,
                      nT: Dict<TrialCount>, on: Dict<seq<real>>, pw: Dict<seq<int>>, ra: Dict<seq<real>>, nb: Dict<Curve>,
                      nT': Dict<TrialCount>, on': Dict<seq<real>>, pw': Dict<seq<int>>, ra': Dict<seq<real>>, nb': Dict<Curve>)
      requires k < |os| == 9 && StoredIn(os, k, nT, on, pw, ra, nb)
      requires SameExcept(nT, nT', PipelineKeys[k]) && SameExcept(on, on', PipelineKeys[k])
      requires SameExcept(pw, pw', PipelineKeys[k]) && SameExcept(ra, ra', PipelineKeys[k])
      requires SameExcept(nb, nb', PipelineKeys[k])
      ensures StoredIn(os, k, nT', on', pw', ra', nb')
    {
      forall j | 0 <= j < k
        ensures PipelineKeys[j] != PipelineKeys[k]
      {
        PipelineKeyUnique(j);
      }
    }

    /** Storing the k-th outcome under its key extends the stored prefix by one. */
    static lemma StoredExtend(os: seq<Result<ConditionOutcome>>, k: nat,
                       nT: Dict<TrialCount>, on: Dict<seq<real>>, pw: Dict<seq<int>>, ra: Dict<seq<real>>, nb: Dict<Curve>)
      requires k < |os| == 9 && StoredIn(os, k, nT, on, pw, ra, nb) && os[k].Ok?
      requires Holds(PipelineKeys[k], os[k].value, nT, on, pw, ra, nb)
      ensures StoredIn(os, k + 1, nT, on, pw, ra, nb)
    {
    }

    /** compute_onsets: the condition's onsets pooled into one array. */
    method ComputeOnsets(data: seq<Trial>, name: string) returns (err: Option<Error>)
      modifies this`onsets
      ensures data == [] ==> err == Some(ValueError) && onsets == old(onsets)
      ensures data != [] ==> err == None && onsets == old(onsets).Set(name, AllOnsets(data))
    {
      match ConcatOnsets(data)
      case Err(e) =>
        return Some(e);
      case Ok(pooled) =>
        onsets := onsets.Set(name, pooled);
        return None;
    }

    /**
     * get_trials_per_window: the integer range of every trial, concatenated
     * trial by trial, then counted per axis point.
     */
    method GetTrialsPerWindow(data: seq<Trial>, name: string) returns (err: Option<Error>)
      modifies this`nTrialsPerWindow
      ensures TrialsPerWindow(data, scale).Err? ==>
                err == Some(TrialsPerWindow(data, scale).error) && nTrialsPerWindow == old(nTrialsPerWindow)
      ensures TrialsPerWindow(data, scale).Ok? ==>
                err == None && nTrialsPerWindow == old(nTrialsPerWindow).Set(name, TrialsPerWindow(data, scale).value)
    {
      var windows: seq<int> := [];
      for i := 0 to |data|
        invariant windows == ConcatRanges(data[..i])
        invariant nTrialsPerWindow == old(nTrialsPerWindow)
      {
        PrefixOfPrefix(data, i + 1, i);
        windows := windows + Range(PyRound(data[i].trialOn), PyRound(data[i].trialEnd));
      }
      WholePrefix(data);
      assert windows == ConcatRanges(data);
      if data == [] {
        return Some(ValueError);
      }
      if scale == [] {
        return Some(IndexError);
      }
      var distribution := seq(|scale|, j requires 0 <= j < |scale| => Max1(CountInBin(windows, scale[0], |scale|, j)));
      assert distribution == TrialsPerWindow(data, scale).value;
      nTrialsPerWindow := nTrialsPerWindow.Set(name, distribution);
      return None;
    }

    /** The rate compute_rates stores under `name`, from the property arrays it reads. */
    function RateFrom(name: string, maskRate: bool, normalization: string,
                      nT: Dict<TrialCount>, pw: Dict<seq<int>>, on: Dict<seq<real>>): (r: Result<seq<real>>)
      ensures r.Ok? ==> |r.value| == |scale|
    {
      var n :=
        if normalization == "per_window" then
          (if name in pw.entries then Ok(PerPoint(pw.entries[name])) else Err(KeyError(name)))
        else if normalization == "uniform" then
          (if name in nT.entries then Ok(nT.entries[name]) else Err(KeyError(name)))
        else Err(ValueError);
      if n.Err? then Err(n.error)
      else if name !in on.entries then Err(KeyError(name))
      else if n.value.PerPoint? && |n.value.counts| != |scale| then Err(ValueError)
      else if !PositiveCounts(n.value) then Err(ZeroDivision)
      else
        DefaultsNeverZero(parameters);
        var curve := RateCurve(on.entries[name], windowStart, windowEnd, n.value, alpha, kernel);
        if !maskRate then Ok(curve)
        else if name !in nT.entries then Err(KeyError(name))
        else match nT.entries[name]
          case PerPoint(_) => Err(ValueError)
          case Uniform(total) => Ok(Mask(curve, total, minimumNCutoff))
    }

    function ComputedRate(name: string, maskRate: bool, normalization: string): (r: Result<seq<real>>)
      reads this`nTrials, this`nTrialsPerWindow, this`onsets
      ensures r.Ok? ==> |r.value| == |scale|
    {
      RateFrom(name, maskRate, normalization, nTrials, nTrialsPerWindow, onsets)
    }

    /** The rate of a non-empty selection under this object's settings. */
    function ConditionRate(selected: seq<Trial>, maskRate: bool, normalization: string): (r: Result<seq<real>>)
      requires selected != [] && scale != []
    {
      DefaultsNeverZero(parameters);
      SelectionRate(selected, windowStart, windowEnd, alpha, kernel, minimumNCutoff, maskRate, normalization)
    }

    /**
     * Once the condition's count, onsets and per-window counts are stored
     * under its name, compute_rates computes exactly the selection's rate.
     */
    lemma RateFromStored(name: string, selected: seq<Trial>, maskRate: bool, normalization: string,
                         nT: Dict<TrialCount>, pw: Dict<seq<int>>, on: Dict<seq<real>>)
      requires selected != [] && scale != []
      requires name in nT.entries && nT.entries[name] == Uniform(|selected|)
      requires name in pw.entries && pw.entries[name] == TrialsPerWindow(selected, scale).value
      requires name in on.entries && on.entries[name] == AllOnsets(selected)
      ensures RateFrom(name, maskRate, normalization, nT, pw, on) == ConditionRate(selected, maskRate, normalization)
    {
      TrialsPerWindowCounts(selected, windowStart, windowEnd);
      DefaultsNeverZero(parameters);
      if normalization == "per_window" || normalization == "uniform" {
        var perWindow := TrialsPerWindow(selected, scale).value;
        var n := if normalization == "per_window" then PerPoint(perWindow) else Uniform(|selected|);
        assert PositiveCounts(n);
        var curve := RateCurve(AllOnsets(selected), windowStart, windowEnd, n, alpha, kernel);
        var expected := Ok(if maskRate then Mask(curve, |selected|, minimumNCutoff) else curve);
        assert SelectionRate(selected, windowStart, windowEnd, alpha, kernel, minimumNCutoff, maskRate, normalization) == expected;
        assert RateFrom(name, maskRate, normalization, nT, pw, on) == expected;
      }
    }

    /**
     * What one iteration produces from the trials it selected and the name it
     * stores them under: the two early errors, or the selection's rate and
     * what is derived from it.
     */
    function SelectionOutcome(selected: seq<Trial>, name: string, maskRate: bool, normalization: string)
      : Result<ConditionOutcome>
    {
      if selected == [] then Err(ValueError)
      else if scale == [] then Err(IndexError)
      else
        match ConditionRate(selected, maskRate, normalization)
        case Err(e) => Err(e)
        case Ok(rate) =>
          match NormalizeStoredRate(scale, timeWindowForBaseline, if maskRate then NdArray(rate) else PyList(rate))
          case Err(e) => Err(e)
          case Ok(normalized) =>
            Ok(ConditionOutcome(name, |selected|, AllOnsets(selected), TrialsPerWindow(selected, scale).value, rate,
                                normalized))
    }

    /**
     * The outcome of the k-th iteration in terms of its selection: the two
     * early errors, or the selection's rate and what is derived from it.
     */
    lemma OutcomeOfSelection(k: nat, maskRate: bool, normalization: string, o: Result<ConditionOutcome>)
      requires k < 9 && o == Outcome(k, maskRate, normalization)
      ensures o == SelectionOutcome(Select(preprocessedTrialData, Combo(k).0, Combo(k).1), PipelineKeys[k],
                                    maskRate, normalization)
    {
      PipelineNames(k);
      NamingRule(preprocessedTrialData, Combo(k).0, Combo(k).1);
      DefaultsNeverZero(parameters);
    }

    /**
     * compute_rates: choose the trial counts, compute the causal rate, mask
     * it by the condition's trial total, store it.
     */
    method ComputeRates(name: string, maskRate: bool, normalization: string) returns (err: Option<Error>)
      modifies this`rates
      ensures ComputedRate(name, maskRate, normalization).Err? ==>
                err == Some(ComputedRate(name, maskRate, normalization).error) && rates == old(rates)
      ensures ComputedRate(name, maskRate, normalization).Ok? ==>
                err == None && rates == old(rates).Set(name, ComputedRate(name, maskRate, normalization).value)
    {
      var n: TrialCount;
      if normalization == "per_window" {
        if name !in nTrialsPerWindow.entries { return Some(KeyError(name)); }
        n := PerPoint(nTrialsPerWindow.entries[name]);
      } else if normalization == "uniform" {
        if name !in nTrials.entries { return Some(KeyError(name)); }
        n := nTrials.entries[name];
      } else {
        return Some(ValueError);
      }
      if name !in onsets.entries { return Some(KeyError(name)); }
      if n.PerPoint? && |n.counts| != |scale| { return Some(ValueError); }
      if !PositiveCounts(n) { return Some(ZeroDivision); }
      DefaultsNeverZero(parameters);
      var res := CausalRate(onsets.entries[name], windowStart, windowEnd, n, alpha, kernel);
      var rate := res.value.0;
      if maskRate {
        if name !in nTrials.entries { return Some(KeyError(name)); }
        match nTrials.entries[name]
        case PerPoint(_) =>
          return Some(ValueError);
        case Uniform(total) =>
          rate := Mask(rate, total, minimumNCutoff);
      }
      rates := rates.Set(name, rate);
      return None;
    }

    /** The insertion order of the five arrays run_rate_pipeline writes. */
    function RateKeyOrders(): (seq<string>, seq<string>, seq<string>, seq<string>, seq<string>)
      reads this`nTrials, this`onsets, this`nTrialsPerWindow, this`rates, this`normalizedBaselineRates
    {
      (nTrials.keys, onsets.keys, nTrialsPerWindow.keys, rates.keys, normalizedBaselineRates.keys)
    }

    /**
     * The body of one iteration of run_rate_pipeline for the selected trials
     * stored under `name`: count, onsets, per-window counts, rate and its
     * baseline normalization, stopping at the first error. An unmasked rate
     * is stored before its normalization raises TypeError. Only the entries
     * under `name` change.
     */
    method ProcessCondition(selected: seq<Trial>, name: string, maskRate: bool, normalization: string)
      returns (err: Option<Error>)
      requires name in nTrials.entries && name in onsets.entries && name in nTrialsPerWindow.entries
      requires name in rates.entries && name in normalizedBaselineRates.entries
      modifies this`nTrials, this`onsets, this`nTrialsPerWindow, this`rates, this`normalizedBaselineRates
      ensures SameExcept(old(nTrials), nTrials, name) && SameExcept(old(onsets), onsets, name)
      ensures SameExcept(old(nTrialsPerWindow), nTrialsPerWindow, name) && SameExcept(old(rates), rates, name)
      ensures SameExcept(old(normalizedBaselineRates), normalizedBaselineRates, name)
      ensures var o := SelectionOutcome(selected, name, maskRate, normalization);
              && (o.Err? ==> err == Some(o.error))
              && (o.Ok? ==> err == None &&
                            Holds(name, o.value, nTrials, onsets, nTrialsPerWindow, rates, normalizedBaselineRates))
      // the unmasked rate is stored under its name before its normalization raises
      ensures !maskRate && selected != [] && scale != [] && ConditionRate(selected, maskRate, normalization).Ok? ==>
                err == Some(TypeError) && name in rates.entries &&
                rates.entries[name] == ConditionRate(selected, maskRate, normalization).value
    {
      nTrials := nTrials.Set(name, Uniform(|selected|));
      err := ComputeOnsets(selected, name);
      if err.Some? {
        return;
      }
      err := GetTrialsPerWindow(selected, name);
      if err.Some? {
        return;
      }
      RateFromStored(name, selected, maskRate, normalization, nTrials, nTrialsPerWindow, onsets);
      err := ComputeRates(name, maskRate, normalization);
      if err.Some? {
        return;
      }
      var rate := rates.entries[name];
      var normalized := NormalizeStoredRate(scale, timeWindowForBaseline, if maskRate then NdArray(rate) else PyList(rate));
      if normalized.Err? {
        return Some(normalized.error);
      }
      normalizedBaselineRates := normalizedBaselineRates.Set(name, normalized.value);
    }

    /**
     * Storing the k-th iteration's results, which differ from the arrays
     * before it at most under its key, keeps the arrays valid and extends
     * the stored prefix when the iteration succeeded.
     */
    static lemma RecordIteration(os: seq<Result<ConditionOutcome>>, k: nat, err: Option<Error>,
                                 nT: Dict<TrialCount>, on: Dict<seq<real>>, pw: Dict<seq<int>>, ra: Dict<seq<real>>,
                                 nb: Dict<Curve>, nn: Dict<seq<real>>,
                                 nT': Dict<TrialCount>, on': Dict<seq<real>>, pw': Dict<seq<int>>, ra': Dict<seq<real>>,
                                 nb': Dict<Curve>)
      requires k < |os| == 9 && StoredIn(os, k, nT, on, pw, ra, nb) && ValidArrays(nT, pw, on, ra, nb, nn)
      requires var key := PipelineKeys[k];
               SameExcept(nT, nT', key) && SameExcept(on, on', key) && SameExcept(pw, pw', key) &&
               SameExcept(ra, ra', key) && SameExcept(nb, nb', key)
      requires os[k].Err? ==> err == Some(os[k].error)
      requires os[k].Ok? ==> err == None && Holds(PipelineKeys[k], os[k].value, nT', on', pw', ra', nb')
      ensures ValidArrays(nT', pw', on', ra', nb', nn)
      ensures err.None? ==> StoredIn(os, k + 1, nT', on', pw', ra', nb')
      ensures err.Some? ==> StoredIn(os, k, nT', on', pw', ra', nb') && os[k] == Err(err.value)
    {
      StoredWrite(os, k, nT, on, pw, ra, nb, nT', on', pw', ra', nb');
      if err.None? {
        StoredExtend(os, k, nT', on', pw', ra', nb');
      }
      ValidArraysKept(nT, pw, on, ra, nb, nn, nT', pw', on', ra', nb', PipelineKeys[k]);
    }

    /** One iteration of run_rate_pipeline's nested loop: the k-th (flash, jump) pair, whose outcome is os[k]. */
    method RunCondition(k: nat, maskRate: bool, normalization: string, ghost os: seq<Result<ConditionOutcome>>)
      returns (err: Option<Error>)
      requires k < |os| == 9
      requires os[k] == SelectionOutcome(Select(preprocessedTrialData, Combo(k).0, Combo(k).1), PipelineKeys[k],
                                         maskRate, normalization)
      requires Valid() && StoredIn(os, k, nTrials, onsets, nTrialsPerWindow, rates, normalizedBaselineRates)
      modifies this`nTrials, this`onsets, this`nTrialsPerWindow, this`rates, this`normalizedBaselineRates
      ensures Valid() && RateKeyOrders() == old(RateKeyOrders())
      ensures err.None? ==> StoredIn(os, k + 1, nTrials, onsets, nTrialsPerWindow, rates, normalizedBaselineRates)
      ensures err.Some? ==> StoredIn(os, k, nTrials, onsets, nTrialsPerWindow, rates, normalizedBaselineRates) &&
                            os[k] == Err(err.value)
    {
      FilterForKey(preprocessedTrialData, k);
      var filtered := FilterByConditions(preprocessedTrialData, Combo(k).0, Combo(k).1).value;
      var selected, name := filtered.0, filtered.1;
      ghost var nT, on, pw, ra, nb := nTrials, onsets, nTrialsPerWindow, rates, normalizedBaselineRates;
      err := ProcessCondition(selected, name, maskRate, normalization);
      RecordIteration(os, k, err, nT, on, pw, ra, nb, normalizedNullConditionRates,
                      nTrials, onsets, nTrialsPerWindow, rates, normalizedBaselineRates);
    }

    /**
     * run_rate_pipeline: the nine (flash, jump) pairs, flash in the outer
     * loop; each writes its results under its own key. On success every
     * condition's results are stored, which only masked rates allow; on
     * failure the first failing condition's error is returned and the
     * conditions before it are stored.
     */
    method RunRatePipeline(maskRate: bool, normalization: string) returns (err: Option<Error>)
      requires Valid()
      modifies this`nTrials, this`onsets, this`nTrialsPerWindow, this`rates, this`normalizedBaselineRates
      ensures Valid() && RateKeyOrders() == old(RateKeyOrders())
      ensures err.None? ==> maskRate && Stored(9, maskRate, normalization)
      ensures err.Some? ==> exists k :: 0 <= k < 9 && Stored(k, maskRate, normalization) &&
                                        Outcome(k, maskRate, normalization) == Err(err.value)
    {
      err := None;
      ghost var os := Outcomes(maskRate, normalization);
      for fi := 0 to 3
        invariant Valid() && RateKeyOrders() == old(RateKeyOrders())
        invariant StoredIn(os, 3 * fi, nTrials, onsets, nTrialsPerWindow, rates, normalizedBaselineRates) && err.None?
      {
        ghost var k;
        err, k := RunFlash(fi, maskRate, normalization, os);
        if err.Some? {
          assert Stored(k, maskRate, normalization) && os[k] == Err(err.value);
          return;
        }
      }
      assert os[0].Ok?;
    }

    /** The inner loop of run_rate_pipeline: the three jump values for the fi-th flash value. */
    method RunFlash(fi: nat, maskRate: bool, normalization: string, ghost os: seq<Result<ConditionOutcome>>)
      returns (err: Option<Error>, ghost k: nat)
      requires fi < 3 && |os| == 9 && forall j :: 0 <= j < 9 ==> os[j] == Outcome(j, maskRate, normalization)
      requires Valid() && StoredIn(os, 3 * fi, nTrials, onsets, nTrialsPerWindow, rates, normalizedBaselineRates)
      modifies this`nTrials, this`onsets, this`nTrialsPerWindow, this`rates, this`normalizedBaselineRates
      ensures Valid() && RateKeyOrders() == old(RateKeyOrders())
      ensures err.None? ==> StoredIn(os, 3 * fi + 3, nTrials, onsets, nTrialsPerWindow, rates, normalizedBaselineRates)
      ensures err.Some? ==> k < 9 && StoredIn(os, k, nTrials, onsets, nTrialsPerWindow, rates, normalizedBaselineRates) &&
                            os[k] == Err(err.value)
    {
      err, k := None, 3 * fi;
      for ji := 0 to 3
        invariant Valid() && RateKeyOrders() == old(RateKeyOrders())
        invariant StoredIn(os, 3 * fi + ji, nTrials, onsets, nTrialsPerWindow, rates, normalizedBaselineRates) && err.None?
      {
        var iteration := 3 * fi + ji;
        k := iteration;
        OutcomeOfSelection(iteration, maskRate, normalization, os[iteration]);
        err := RunCondition(iteration, maskRate, normalization, os);
        if err.Some? {
          return;
        }
      }
    }

    /**
     * normalize_to_null_condition: every condition's rate divided by a
     * clamped copy of the null condition's rate, visited in the insertion
     * order of the rates. An unknown null condition raises KeyError before
     * anything is written; a rate of another length than the null curve
     * raises ValueError, after the keys before it were written.
     */
    method NormalizeToNullCondition(nullCondition: string) returns (err: Option<Error>)
      requires Valid()
      modifies this`normalizedNullConditionRates
      ensures Valid()
      ensures nullCondition !in rates.entries ==>
                err == Some(KeyError(nullCondition)) && normalizedNullConditionRates == old(normalizedNullConditionRates)
      ensures nullCondition in rates.entries ==>
                var r := NormalizeAllToNull(old(normalizedNullConditionRates), rates.keys, rates.entries,
                                            rates.entries[nullCondition]);
                && (r.Ok? ==> err == None && normalizedNullConditionRates == r.value)
                && (r.Err? ==> err == Some(r.error) &&
                               exists j :: 0 <= j < |rates.keys| &&
                                 NormalizeAllToNull(old(normalizedNullConditionRates), rates.keys[..j], rates.entries,
                                                    rates.entries[nullCondition]) == Ok(normalizedNullConditionRates))
    {
      // the first iteration already looks the null condition up, and there is one: "all" is a key
      if nullCondition !in rates.entries {
        return Some(KeyError(nullCondition));
      }
      ghost var start := normalizedNullConditionRates;
      var nullRates := rates.entries[nullCondition];
      err := NormalizeEach(rates.keys, nullRates);
      if err.None? {
        NullNormalizedValid(nTrials, nTrialsPerWindow, onsets, rates, normalizedBaselineRates, start,
                            rates.keys, nullRates, normalizedNullConditionRates);
      } else {
        ghost var j :| 0 <= j < |rates.keys| &&
          NormalizeAllToNull(start, rates.keys[..j], rates.entries, nullRates) == Ok(normalizedNullConditionRates);
        NullNormalizedValid(nTrials, nTrialsPerWindow, onsets, rates, normalizedBaselineRates, start,
                            rates.keys[..j], nullRates, normalizedNullConditionRates);
      }
    }

    /** The loop of normalize_to_null_condition over `keys`, stopping at the first length mismatch. */
    method NormalizeEach(keys: seq<string>, nullRates: seq<real>) returns (err: Option<Error>)
      requires forall k :: k in keys ==> k in rates.entries
      modifies this`normalizedNullConditionRates
      ensures var r := NormalizeAllToNull(old(normalizedNullConditionRates), keys, rates.entries, nullRates);
              && (r.Ok? ==> err == None && normalizedNullConditionRates == r.value)
              && (r.Err? ==> err == Some(r.error) &&
                             exists j :: 0 <= j < |keys| &&
                               NormalizeAllToNull(old(normalizedNullConditionRates), keys[..j], rates.entries, nullRates) ==
                               Ok(normalizedNullConditionRates))
    {
      for i := 0 to |keys|
        invariant NormalizeAllToNull(old(normalizedNullConditionRates), keys[..i], rates.entries, nullRates) ==
                  Ok(normalizedNullConditionRates)
      {
        var key := keys[i];
        PrefixOfPrefix(keys, i + 1, i);
        assert keys[..i + 1][i] == key;
        var copy := new real[|nullRates|](j requires 0 <= j < |nullRates| => nullRates[j]);
        assert copy[..] == nullRates;
        var normalized := NormalizeRatesToNullCondition(rates.entries[key], copy);
        if normalized.Err? {
          NormalizeAllToNullFirstError(old(normalizedNullConditionRates), keys, rates.entries, nullRates, i + 1);
          return Some(normalized.error);
        }
        normalizedNullConditionRates := normalizedNullConditionRates.Set(key, normalized.value);
      }
      WholePrefix(keys);
      return None;
    }

    /** The curves run_metrics_pipeline reads for a normalization, or None for an unknown one. */
    function MetricsSource(normalization: string): (d: Option<Dict<Curve>>)
      requires Valid()
      reads this`normalizedNullConditionRates, this`normalizedBaselineRates, this`rates, this`nTrials,
            this`nTrialsPerWindow, this`onsets
      ensures d.Some? ==> forall k :: k in d.value.keys ==> k in d.value.entries
      ensures d.None? <==> normalization != "null_condition" && normalization != "baseline" && normalization != "none"
    {
      if normalization == "null_condition" then Some(AsCurves(normalizedNullConditionRates))
      else if normalization == "baseline" then Some(normalizedBaselineRates)
      else if normalization == "none" then Some(AsCurves(rates))
      else None
    }

    /**
     * run_metrics_pipeline: one metrics row per condition of the chosen
     * curves, in their insertion order, appended to the metrics table. An
     * unknown normalization raises ValueError; the first failing condition
     * stops the loop with the rows before it appended.
     */
    method RunMetricsPipeline(normalization: string) returns (err: Option<Error>)
      requires Valid()
      modifies this`metrics
      ensures Valid()
      ensures MetricsSource(normalization).None? ==> err == Some(ValueError) && metrics == old(metrics)
      ensures MetricsSource(normalization).Some? ==>
                var d := MetricsSource(normalization).value;
                var r := MetricsRows(d.keys, d.entries, scale, metricsSearchStart, metricsSearchEnd);
                && (r.Ok? ==> err == None && metrics == old(metrics) + r.value)
                && (r.Err? ==> err == Some(r.error) &&
                               exists j :: 0 <= j < |d.keys| &&
                                 MetricsRows(d.keys[..j], d.entries, scale, metricsSearchStart, metricsSearchEnd).Ok? &&
                                 metrics == old(metrics) +
                                   MetricsRows(d.keys[..j], d.entries, scale, metricsSearchStart, metricsSearchEnd).value)
    {
      var source := MetricsSource(normalization);
      if source.None? {
        return Some(ValueError);
      }
      ghost var done;
      err, done := AppendMetrics(source.value);
    }

    /**
     * The loop of run_metrics_pipeline: a row per key of `data`, appended in
     * order until one fails; `done` counts the keys whose rows were appended.
     */
    method AppendMetrics(data: Dict<Curve>) returns (err: Option<Error>, ghost done: nat)
      requires forall k :: k in data.keys ==> k in data.entries
      modifies this`metrics
      ensures var r := MetricsRows(data.keys, data.entries, scale, metricsSearchStart, metricsSearchEnd);
              && (r.Ok? ==> err == None && metrics == old(metrics) + r.value)
              && (r.Err? ==> err == Some(r.error))
      ensures err.Some? ==>
                done < |data.keys| &&
                MetricsRows(data.keys[..done], data.entries, scale, metricsSearchStart, metricsSearchEnd).Ok? &&
                metrics == old(metrics) +
                           MetricsRows(data.keys[..done], data.entries, scale, metricsSearchStart, metricsSearchEnd).value
    {
      var keys := data.keys;
      ghost var appended: seq<MetricsRow> := [];
      done := 0;
      for i := 0 to |keys|
        invariant done == i
        invariant MetricsRows(keys[..i], data.entries, scale, metricsSearchStart, metricsSearchEnd) == Ok(appended)
        invariant metrics == old(metrics) + appended
      {
        var row := AppendRow(data, i, appended);
        if row.Err? {
          return Some(row.error), done;
        }
        appended := appended + [row.value];
        done := i + 1;
      }
      WholePrefix(keys);
      return None, done;
    }

    /** One iteration of run_metrics_pipeline: the row of the i-th key, appended when it can be computed. */
    method AppendRow(data: Dict<Curve>, i: nat, ghost appended: seq<MetricsRow>) returns (row: Result<MetricsRow>)
      requires i < |data.keys| && forall k :: k in data.keys ==> k in data.entries
      requires MetricsRows(data.keys[..i], data.entries, scale, metricsSearchStart, metricsSearchEnd) == Ok(appended)
      modifies this`metrics
      ensures row.Err? ==> metrics == old(metrics) &&
                           MetricsRows(data.keys, data.entries, scale, metricsSearchStart, metricsSearchEnd) == Err(row.error)
      ensures row.Ok? ==> metrics == old(metrics) + [row.value] &&
                          MetricsRows(data.keys[..i + 1], data.entries, scale, metricsSearchStart, metricsSearchEnd) ==
                          Ok(appended + [row.value])
    {
      var keys := data.keys;
      row := MetricsFor(keys[i], data.entries[keys[i]], scale, metricsSearchStart, metricsSearchEnd);
      MetricsRowsStep(keys, data.entries, scale, metricsSearchStart, metricsSearchEnd, i);
      if row.Err? {
        MetricsRowsFirstError(keys, data.entries, scale, metricsSearchStart, metricsSearchEnd, i + 1);
        return;
      }
      metrics := metrics + [row.value];
    }
  }
}
