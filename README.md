# Manual inhibition: a Dafny model of the analysis and the trial logic

This project models the computational core of the manual-inhibition experiment
and its analysis, and proves properties of the model. In the experiment, a
participant touches a row of dots from left to right. A flash or a jump of the
dots may interrupt the sequence, and the analysis measures how much touching
pauses after such an event.

Experiment side:

- **Trial-list generator** (`Serial_canvas_loop` in `experiment/common_funcs.js`):
  - the trial count and the trial order;
  - the jittered dot grid;
  - the sorted flash onsets;
  - the condition fields;
  - the calibration check;
  - the equally spaced array;
  - the `Circle`/`Rectangle` setters.
- **Trial state machine** (the jsPsych plugin `canvas-manual-inhibition-serial.js`):
  - scaling degrees to pixels;
  - recording touches;
  - the hit test that removes a dot;
  - the flash schedule fed by a queue of onsets;
  - the end-of-trial test;
  - the outcome flags (late response, order, too many touches, success).

Analysis side:

- **Preprocessing** (`analysis/preprocessing.py`):
  - column-wise time alignment to the trial onset and to the flash;
  - the condition labels;
  - touches re-based on the first touch;
  - the time of the last touch before the flash;
  - the row drop and event times of `ensure_formats`;
  - the session-to-pixels-per-degree map;
  - centre and degree-of-visual-angle columns.
- **Helpers** (`analysis/helper_funcs.py`):
  - the causal rate estimator;
  - the alignment helpers;
  - `clean_dataframe`.
- **Per-subject pipeline** (`analysis/subject_level_stats.py`):
  - condition filtering and naming;
  - trials per window;
  - rate masking;
  - baseline and null-condition normalisation;
  - the dip metrics (minimum, magnitude, bottom, latency);
  - the `OneSubjectInhibition` object whose property dictionaries are filled in place.

Modules, one file each:

- `Wrappers`: Option, Result and the Python exception kinds.
- `Sequences`: generic sequence facts.
- `Frames`: dataframes as sequences of rows, each row a map from column name to a number, list or text cell. A `DataFrame` class holds the rows that in-place column writes replace.
- `HelperFuncs`.
- `Preprocessing`.
- `SubjectLevelStats`.
- `CommonFuncs`.
- `SerialTrial`.

Modelling choices:

- Whatever the core code itself draws or receives becomes a parameter:
  - the random numbers (`rand: nat -> real`);
  - the kernel `α²·τ·e^(−ατ)`, as an arbitrary function of τ;
  - the event coordinates and timestamps;
  - the window size;
  - the columns produced by helpers that are not part of this model.
- Numbers are exact reals.
- `json.loads` is the parameter `decode` of HelperFuncs.AlignToStart, from strings to cells.
- An exception the source raises is an `Err` value of the matching kind. A NaN from an empty baseline window is explicit (a `None` baseline, an `Undefined` curve). numpy's inf is not represented: the places where it would arise are listed under "## Left out".
- Loops that fill or overwrite state in place are methods on a class or array, proved against a specification function. Filters, names and flags are functions with lemmas.

## Model

| member | source | states |
|---|---|---|
| Frames.Apply | analysis/preprocessing.py:219-223 | Cell arithmetic with numpy's scalar broadcasting. A text operand raises TypeError. Two lists of different lengths raise ValueError (numpy's broadcasting of a length-1 array is not modelled; see Left out). A list operand yields a list of its length. Two numbers yield a number. |
| Frames.ColumnOp | analysis/preprocessing.py:220 | `df[col] op df[ref]` succeeds only when both columns exist. Row i holds the operation on row i's cells. With both columns present, it fails exactly when some row's operation fails. |
| Frames.WithColumnFrame | analysis/helper_funcs.py:60 | Assigning a column keeps the row count. Every row gains exactly that column, holding its own value. Every other column is unchanged. |
| Frames.RenamedRow | analysis/preprocessing.py:98 | Renaming moves the value of `from` to `to` and drops `from`. Other columns are unchanged. A row without `from` is untouched. |
| Frames.DataFrame.SetColumn | analysis/helper_funcs.py:60 | The in-place column assignment: the frame's rows become the old rows with the column written. |
| Frames.DataFrame.RenameColumn | analysis/preprocessing.py:98 | `rename(..., inplace=True)`: the frame's rows become the renamed rows. |
| HelperFuncs.CleanDataframe | analysis/helper_funcs.py:6-13 | Keeps exactly the rows with `test_part == 'trial'` and `success == 1`, never more rows than given. The input is a value and is not changed. |
| HelperFuncs.CleanDataframeConcat | analysis/helper_funcs.py:9-11 | The drop decides row by row: cleaning a concatenation is concatenating the cleaned parts, so kept rows stay in order. |
| HelperFuncs.CleanDataframeIdempotent | analysis/helper_funcs.py:6-13 | Cleaning a cleaned frame changes nothing. |
| HelperFuncs.Loads | analysis/helper_funcs.py:32-37 | `json.loads` of a cell that is not a string raises TypeError. A string goes to the parser. |
| HelperFuncs.AlignCell | analysis/helper_funcs.py:28-38 | A difference numpy can take directly is the row's value, and no fallback is tried. Between numbers and arrays the fallbacks rescue nothing, and a failure surfaces as TypeError. A string that parses to a number or an array stands for that value on either side. Two strings never align. A result is never a string. |
| HelperFuncs.AlignedColumn | analysis/helper_funcs.py:27-42 | The column succeeds only when both columns exist. Row i holds row i's aligned cell. With both columns present it fails exactly when some row's three attempts all fail. |
| HelperFuncs.AlignToStart | analysis/helper_funcs.py:16-44 | Works on a copy and returns it. On success both columns exist and the row count is kept. Each row gains `"{column}_to_{start_column}"`, holding the row's aligned cell: the difference, else the parsed column minus the start, else the column minus the parsed start. Every other cell is unchanged. With both columns present it fails exactly when some row's three attempts all fail. |
| HelperFuncs.Block | analysis/helper_funcs.py:52-54 | The block for one reference value has the column's length. Entry j is `column[j] − value`. |
| HelperFuncs.MultiAlignedLength | analysis/helper_funcs.py:52-58 | The concatenated blocks hold `len(column) · len(multi)` values. |
| HelperFuncs.MultiAlignedAt | analysis/helper_funcs.py:52-58 | Value `k·len(column)+j` is `column[j] − multi[k]`: block k comes from the k-th reference value, in reference order. |
| HelperFuncs.AlignToMultipleValues | analysis/helper_funcs.py:47-62 | Changes the caller's frame in place. When every row's cell can be computed, the frame gains `"{column}_to_{multi}"` holding each row's concatenated blocks. Otherwise the first row's error is returned and the frame is unchanged. |
| HelperFuncs.CausalRate | analysis/helper_funcs.py:65-105 | Raises ValueError exactly when `n_trials` is a sequence whose length differs from the axis. Otherwise `rate` and `scale` both have `start + end` entries and `scale[i] = −start + i`. `rate[i]` = 1000 · (sum of the kernel over the onsets with τ > 0) / `n_trials[i]`, with an int count used at every point. No onsets give a rate of 0 everywhere. |
| HelperFuncs.KernelSumNonNegative | analysis/helper_funcs.py:97-101 | With a kernel non-negative for τ > 0, the summed kernel is ≥ 0. |
| HelperFuncs.RateNonNegative | analysis/helper_funcs.py:101-103 | With such a kernel and a positive divisor, every rate is ≥ 0. |
| HelperFuncs.Reaching | analysis/helper_funcs.py:97-99 | The onsets the `tau > 0` filter keeps are exactly those with `t − onset + 1/α > 0`. |
| HelperFuncs.KernelSumConcat | analysis/helper_funcs.py:99-103 | The summed kernel is additive over the onset list. |
| HelperFuncs.KernelSumOnlyReaching | analysis/helper_funcs.py:99-101 | Only the onsets that pass the filter contribute. |
| HelperFuncs.LateOnsetsIgnored | analysis/helper_funcs.py:97-101 | Causality: adding onsets at or after `t + 1/α` leaves the sum at t unchanged. |
| Preprocessing.DerivedNameInjective | analysis/preprocessing.py:218 | Distinct columns get distinct `"{col}_to_{value_col}"` (or `"{col}_dva"`) names. |
| Preprocessing.DerivedCells | analysis/preprocessing.py:213-225 | In a completed run, every row gains, for each listed column, `col − value_col` (or `col / px2dva`) under the derived name. Every other column is unchanged. |
| Preprocessing.DeriveColumns | analysis/preprocessing.py:217-224 | The in-place loop over the column list leaves the frame and the error of the column-by-column derivation, stopping at the first failing column. |
| Preprocessing.FirstOf | analysis/preprocessing.py:201 | `x[0]` of a list cell succeeds exactly when the list is non-empty, giving its first element. A number cell raises TypeError. |
| Preprocessing.FirstCells | analysis/preprocessing.py:201 | The column of first elements, one per row. With the column present, it fails exactly when some row fails. |
| Preprocessing.AlignColumnsToTrialOnTime | analysis/preprocessing.py:196-210 | Changes the frame in place. The result is the new time columns followed by the eight columns aligned to `trialOnTime`. |
| Preprocessing.TrialTimesAddedRow | analysis/preprocessing.py:201-205 | `trialOnTime` is the row's first animation timestamp. `flashOnTime` is shifted by `startTime`, which is itself unchanged. `trialEndTime = startTime + 1500`. |
| Preprocessing.TrialOnTimeAlignment | analysis/preprocessing.py:196-210 | After the alignment, `trialOnTime` is the first animation timestamp and `trialOnTime_to_trialOnTime = 0`. `flashOnTime` holds the recorded onset plus `startTime`. |
| Preprocessing.TrialEndAlignment | analysis/preprocessing.py:205-209 | `trialEndTime_to_trialOnTime − startTime_to_trialOnTime = 1500` for every numeric start time. |
| Preprocessing.FourLabelWrites | analysis/preprocessing.py:239-252 | The default write followed by the four `.loc` writes labels (1,1) `Flash_Shift`, (1,0) `Flash_No_Shift`, (0,1) `No_Flash_Shift` and (0,0) `No_Flash_No_Shift`. Any other flags stay `not defined`. |
| Preprocessing.LabelConditions | analysis/preprocessing.py:238-252 | In place: every row gets its condition label. A missing flag column leaves every row `not defined` and raises. |
| Preprocessing.AlignedTouchOnStartsAtZero | analysis/preprocessing.py:104-106 | Each row's `aligned_touchOn` has the same length as its touch onsets. Entry j is `onset[j] − onset[0]`, so the first entry is 0. |
| Preprocessing.Negatives | analysis/preprocessing.py:114 | `d[d < 0]` keeps exactly the negative entries. |
| Preprocessing.Max | analysis/preprocessing.py:115 | `max` of a non-empty list is an element no smaller than any other. |
| Preprocessing.LastInteractionIsLatestTouch | analysis/preprocessing.py:111-117 | `interaction_to_change_distance` exists exactly when some touch precedes the flash, and otherwise `max` raises ValueError. It is then negative, one of the distances, and no other negative distance is larger. |
| Preprocessing.LastInteractions | analysis/preprocessing.py:109-117 | On success, one value per row, each that row's last interaction. |
| Preprocessing.LastInteractionsFailIffRowFails | analysis/preprocessing.py:111-117 | The loop fails exactly when some row fails. |
| Preprocessing.TimesToLastInteraction | analysis/preprocessing.py:109-117 | The appending loop computes the per-row last interactions, or the first row's error. |
| Preprocessing.LastInteractionsPrefixError | analysis/preprocessing.py:111-115 | An error in the first k rows is the error of the whole loop. |
| Preprocessing.PerformTimeAlignments | analysis/preprocessing.py:89-119 | Changes the frame in place. The result is the trial-onset alignment, the rename, the alignment to the flash, the re-based touches and the last interaction. |
| Preprocessing.TimeAlignedRow | analysis/preprocessing.py:104-117 | After the time alignments, every row has a non-empty touch list. Its `aligned_touchOn` has the same length and starts at 0. Its `interaction_to_change_distance` is its last interaction, which is negative. |
| Preprocessing.LastInteractionNegative | analysis/preprocessing.py:114-115 | A last interaction is always < 0. |
| Preprocessing.FlashOffRecorded | analysis/preprocessing.py:65 | Keeps exactly the rows whose `flashOffTime` is not `'[]'`, never more rows than given. |
| Preprocessing.FlashOffRecordedConcat | analysis/preprocessing.py:65 | The drop decides row by row, so kept rows stay in order. |
| Preprocessing.EnsureFormats | analysis/preprocessing.py:63-74 | Returns a fresh frame holding the rows the drop keeps, with the two event times added, or the error of the computation. |
| Preprocessing.FormatsEnsuredRows | analysis/preprocessing.py:63-74 | Without a `flashOffTime` column the call raises KeyError. Otherwise every kept row gains `scheduled_eventOnTime = startTime + scheduled_change_onset` and `eventOnTime = startTime + flashOnTime` and is otherwise unchanged. |
| Preprocessing.ChinrestParams | analysis/preprocessing.py:27-28 | Keeps exactly the virtual-chinrest rows that have a session id. |
| Preprocessing.LastPx2deg | analysis/preprocessing.py:31-32 | A session's value is the `px2deg` of the last chinrest row of that session. |
| Preprocessing.SessionToPpdva | analysis/preprocessing.py:30-32 | The loop over the unique sessions builds the whole map. |
| Preprocessing.SessionPpdvaLast | analysis/preprocessing.py:27-32 | The map fails exactly when a chinrest row lacks `px2deg`, because dropna removes the column. Its keys are exactly the chinrest sessions. Each value is the `px2deg` of the session's last chinrest row. |
| Preprocessing.ChinrestLast | analysis/preprocessing.py:31-32 | The last value among the filtered rows is the value of the session's last chinrest row in the original table. |
| Preprocessing.Px2dvaCell | analysis/preprocessing.py:156 | `replace(ppdva)` maps a known session to its value and leaves anything else as it is. |
| Preprocessing.Px2dvaColumn | analysis/preprocessing.py:156 | The `px2dva` column exists exactly when `session_id` does. It holds each row's replaced session id. |
| Preprocessing.PerformSpaceAlignments | analysis/preprocessing.py:122-174 | Changes the frame in place. The result is the positions, the centred touches, the distances, `px2dva` and the four dva columns. |
| Preprocessing.CentreAlignedRow | analysis/preprocessing.py:137-143 | `touch_x_to_center = touchX − windowWidth/2`, and the same for y. |
| Preprocessing.CentreAlignedKeys | analysis/preprocessing.py:140-143 | The centring adds exactly the two centred columns and changes nothing else. |
| Preprocessing.DvaStageRow | analysis/preprocessing.py:156-159 | `px2dva` is the session's value. Each of the four pixel columns, unchanged, is divided by it into `"{col}_dva"`. |
| Preprocessing.SpaceAlignedTouch | analysis/preprocessing.py:137-159 | After the whole space alignment, every row holds its centred touches, its session's `px2dva` and the four columns divided by it. |
| SubjectLevelStats.SelectMembers | analysis/subject_level_stats.py:244-249 | The filtered trials are exactly the trials matching every flag that is set. |
| SubjectLevelStats.NamingRule | analysis/subject_level_stats.py:241-259 | With 0/1/None flags the filter succeeds. Two set flags give `"{no_flash\|flash}_{no_shift\|shift}"`, one set flag gives its label, and none gives `"all"`. |
| SubjectLevelStats.PipelineNames | analysis/subject_level_stats.py:139-145 | Iteration k of the 3×3 loop over None, 0, 1 passes flags the filter accepts. It is named by the k-th name in loop order. |
| SubjectLevelStats.PipelineKeysAreTheConditionKeys | analysis/subject_level_stats.py:106-114 | The nine names the loop produces are distinct and are exactly the nine keys of `empty_property_array`. |
| SubjectLevelStats.FilterForKey | analysis/subject_level_stats.py:144-145 | The k-th call returns the matching trials and the k-th key, which is one of the nine keys. |
| SubjectLevelStats.FullConditionsPartition | analysis/subject_level_stats.py:244-249 | With 0/1 flags, the four fully specified selections together, as multisets, are the `"all"` selection, so each trial lands in exactly one. The `"all"` selection is the whole data. |
| SubjectLevelStats.PyRound | analysis/subject_level_stats.py:229-232 | Python's `round` yields an integer within 0.5 of its argument. |
| SubjectLevelStats.CountInBinRange | analysis/subject_level_stats.py:229-235 | A trial's range `[lo, hi)` adds 1 to bin i exactly when it contains `first + i`. It adds 1 more to the closed last bin when it contains `first + n`. |
| SubjectLevelStats.HistogramCountsTrials | analysis/subject_level_stats.py:227-235 | Bin i counts the trials covering axis point `first + i`. The last bin also counts the trials covering `first + n`. |
| SubjectLevelStats.TrialsPerWindowCounts | analysis/subject_level_stats.py:225-238 | For a non-empty condition on a non-empty axis, there is one entry per axis point. Each entry is `max(1, trials covering the point)`, the last also counting trials covering `window_end`, so every entry is ≥ 1. |
| SubjectLevelStats.MaskAllOrNothing | analysis/subject_level_stats.py:221-222 | Masking by the scalar trial count leaves the curve unchanged when the count exceeds the cutoff, and zeroes all of it otherwise. |
| SubjectLevelStats.BaselineNormalizationIdempotent | analysis/subject_level_stats.py:155-156 | Dividing by a non-zero baseline gives a curve whose own baseline is 1. |
| SubjectLevelStats.BaselineNonNegative | analysis/subject_level_stats.py:262-266 | The mean of non-negative rates over the strict window `time_window_for_baseline < t < 0` is ≥ 0. |
| SubjectLevelStats.Clamp | analysis/subject_level_stats.py:271 | The clamped null curve keeps its length, and every entry is ≥ 1. |
| SubjectLevelStats.NullNormalizedBounds | analysis/subject_level_stats.py:269-273 | The normalised rate times the clamped null rate gives back the rate. A non-negative rate never grows and stays ≥ 0. A null rate ≤ 1 leaves the rate unchanged. A zero rate stays 0. |
| SubjectLevelStats.NullConditionNormalizedByItself | analysis/subject_level_stats.py:158-163 | The null condition divided by its own clamped curve is ≤ 1 everywhere, and exactly 1 where the null rate exceeds 1. |
| SubjectLevelStats.NormalizeRatesToNullCondition | analysis/subject_level_stats.py:269-273 | The array is clamped in place. For equal lengths it returns the rates divided by the clamped array, otherwise ValueError. |
| SubjectLevelStats.CountBelowIndices | analysis/subject_level_stats.py:284-285 | The count of samples below a threshold equals the number of indices `np.where(rates < threshold)` reports. |
| SubjectLevelStats.BottomOfDip | analysis/subject_level_stats.py:281-286 | The bottom is the number of indices whose sample lies below `minimum + (baseline − minimum)·0.1`, so at most the number of samples. |
| SubjectLevelStats.BottomOfDipNonEmpty | analysis/subject_level_stats.py:281-286 | When `minimum = min(rates) < baseline` the count is at least 1. |
| SubjectLevelStats.FirstIndexOf | analysis/subject_level_stats.py:278 | `np.where(data == m)[0][0]` is the first index holding m, and there is none exactly when m does not occur. |
| SubjectLevelStats.GetLatency | analysis/subject_level_stats.py:276-278 | `get_latency` can only fail with IndexError. |
| SubjectLevelStats.LatencyOfFirstMinimum | analysis/subject_level_stats.py:276-278 | Succeeds exactly when the minimum occurs at an index the time axis reaches, and then returns the time of its first occurrence. |
| SubjectLevelStats.Min | analysis/subject_level_stats.py:183 | `np.min` of a non-empty window is one of its values and no larger than any other. |
| SubjectLevelStats.MetricsRowFacts | analysis/subject_level_stats.py:182-195 | The minimum is the smallest value of the search window and the magnitude is `1 − minimum`. The bottom is at most the window size, and at least 1 when the minimum is below 1. The latency is the time at which the window reaches its minimum. |
| SubjectLevelStats.LatencyAlwaysFound | analysis/subject_level_stats.py:189-195 | On a defined curve with a non-empty search window the metrics row always succeeds, so `get_latency` never raises there. |
| SubjectLevelStats.KeyFlags | analysis/subject_level_stats.py:179-180 | For each of the nine keys, `flashShown` is 0 exactly when the flash flag was 0 (the key contains `no_flash`). Likewise `stimJumped` is 0 exactly when the jump flag was 0. |
| SubjectLevelStats.UnnegatedKey | analysis/subject_level_stats.py:179-180 | A key without `n` (`all`, `flash`, `shift`, `flash_shift`) gets both flags 1. |
| SubjectLevelStats.NoShiftFlags | analysis/subject_level_stats.py:179-180 | `no_shift` gives `flashShown` 1 and `stimJumped` 0. |
| SubjectLevelStats.NoFlashFlags | analysis/subject_level_stats.py:179-180 | `no_flash` gives `flashShown` 0 and `stimJumped` 1. |
| SubjectLevelStats.NoFlashNoShiftFlags | analysis/subject_level_stats.py:179-180 | `no_flash_no_shift` gives 0 and 0. |
| SubjectLevelStats.NoFlashShiftFlags | analysis/subject_level_stats.py:179-180 | `no_flash_shift` gives 0 and 1. |
| SubjectLevelStats.FlashNoShiftFlags | analysis/subject_level_stats.py:179-180 | `flash_no_shift` gives 1 and 0. |
| SubjectLevelStats.NormalizeToBaseline | analysis/subject_level_stats.py:155-156 | The rate divided by its baseline keeps its length. It is a defined curve exactly when the baseline window is non-empty and its mean is non-zero. |
| SubjectLevelStats.NormalizedBaselineIsOne | analysis/subject_level_stats.py:155-156 | A defined baseline-normalised curve has a baseline of exactly 1. |
| SubjectLevelStats.UnmaskedPipelineRaises | analysis/subject_level_stats.py:153-156 | As written, an unmasked rate (a Python list) makes `compute_baseline` raise TypeError. A masked rate (an ndarray) normalises like the corrected definition. |
| SubjectLevelStats.EmptyPropertyArray | analysis/subject_level_stats.py:106-114 | The nine condition keys, in order, each mapped to the empty value, form a well-formed dictionary. |
| SubjectLevelStats.ConditionKeysDistinct | analysis/subject_level_stats.py:106-114 | The nine keys are pairwise distinct. |
| SubjectLevelStats.DefaultsNeverZero | analysis/subject_level_stats.py:120-124 | The `or` defaults never leave α or a window bound at 0. An explicit 0 start becomes 1000, and a non-zero α is kept. |
| SubjectLevelStats.SearchIndexOnAxis | analysis/subject_level_stats.py:133-134 | A search bound v on the axis sits at index `v + window_start`. A bound off the axis finds no index. |
| SubjectLevelStats.SelectionRate | analysis/subject_level_stats.py:207-223 | `compute_rates` fails exactly for an unknown normalization. Otherwise the rate has one entry per axis point. |
| SubjectLevelStats.ConditionPipeline | analysis/subject_level_stats.py:144-156 | An iteration succeeds only with a masked rate. Its rate and per-window counts then have one entry per axis point, and so does its normalised curve. |
| SubjectLevelStats.ConditionPipelineOfSelection | analysis/subject_level_stats.py:144-156 | With masking, one iteration stores the condition's name, its trial count, the per-window counts of its trials and the rate of its selection. Without masking it raises TypeError. |
| SubjectLevelStats.ConditionPipelineSucceeds | analysis/subject_level_stats.py:141-156 | A non-empty condition with 0/1 flags under a known normalization succeeds when its rate is masked. It is named by the naming rule and counts its trials. Every per-window count is ≥ 1, and every rate is ≥ 0 for a non-negative kernel. Unmasked, it raises TypeError at the baseline step. |
| SubjectLevelStats.RateCurveNonNegative | analysis/helper_funcs.py:101-103 | Every point of the causal rate curve is ≥ 0 for positive counts and a non-negative kernel. |
| SubjectLevelStats.NormalizeAllToNull | analysis/subject_level_stats.py:158-163 | Visiting the keys succeeds exactly when every visited rate has the null curve's length. Each visited key then holds its rate divided by the clamped null curve. Other keys are unchanged. |
| SubjectLevelStats.NormalizeAllToNullValid | analysis/subject_level_stats.py:158-163 | Null normalisation keeps the dictionary well formed. |
| SubjectLevelStats.NormalizeAllToNullFirstError | analysis/subject_level_stats.py:159-163 | The first key that fails decides the error. |
| SubjectLevelStats.MetricsRowsPerKey | analysis/subject_level_stats.py:176-196 | On success there is one metrics row per key, in key order, each the row of that key's curve. |
| SubjectLevelStats.MetricsRowsFirstError | analysis/subject_level_stats.py:176-196 | The first key whose row fails decides the error. |
| SubjectLevelStats.OneSubjectInhibition.constructor | analysis/subject_level_stats.py:118-136 | The settings take their `or` defaults. Every property array starts as the nine keys mapped to an empty list, and the metrics table is empty. |
| SubjectLevelStats.OneSubjectInhibition.ComputeOnsets | analysis/subject_level_stats.py:198-205 | An empty condition raises ValueError and stores nothing. Otherwise `onsets[name]` is the concatenation of the condition's onsets. |
| SubjectLevelStats.OneSubjectInhibition.GetTrialsPerWindow | analysis/subject_level_stats.py:225-238 | `n_trials_per_window[name]` becomes the floored histogram of the condition's trial ranges, or the error is returned and nothing is stored. |
| SubjectLevelStats.OneSubjectInhibition.ComputeRates | analysis/subject_level_stats.py:207-223 | `rates[name]` becomes the (masked) causal rate over the stored counts and onsets, or the error is returned and nothing is stored. |
| SubjectLevelStats.OneSubjectInhibition.ProcessCondition | analysis/subject_level_stats.py:144-156 | One iteration changes the property arrays only under its name. Its error is the iteration's error. An unmasked rate that could be computed is left stored under the name, and the error is TypeError. On success they hold the condition's count, onsets, per-window counts, rate and baseline-normalised curve. |
| SubjectLevelStats.OneSubjectInhibition.RunRatePipeline | analysis/subject_level_stats.py:138-156 | The dictionaries stay well formed with their key order unchanged. Success requires `mask_rate`, and then all nine iterations' results sit under their names. On an error, the error is that of some iteration k, and every earlier iteration's results are stored. |
| SubjectLevelStats.OneSubjectInhibition.NormalizeToNullCondition | analysis/subject_level_stats.py:158-163 | An unknown null condition raises KeyError and changes nothing. Otherwise every rate key holds its rate normalised to the null curve. On a length mismatch the error is returned, and the keys of a prefix of the key order are done. |
| SubjectLevelStats.OneSubjectInhibition.MetricsSource | analysis/subject_level_stats.py:166-174 | The curves to measure exist exactly for `null_condition`, `baseline` and `none`. |
| SubjectLevelStats.OneSubjectInhibition.RunMetricsPipeline | analysis/subject_level_stats.py:165-196 | An unknown normalization raises ValueError and leaves the table unchanged. Otherwise the table gains one row per key in key order. On a failing key the error is returned, and the table has gained the rows of a prefix of the keys. |
| CommonFuncs.CalibrationRegion | experiment/common_funcs.js:24-32 | Every screen the check accepts is wider than the 14° the stimuli need. |
| CommonFuncs.MakeEqualDistanceArray | experiment/common_funcs.js:81-88 | The loop pushes the `nEntries` values `start + i·step`. |
| CommonFuncs.EqualDistanceArray | experiment/common_funcs.js:81-88 | There are exactly `nEntries` entries. |
| CommonFuncs.EqualDistanceEnds | experiment/common_funcs.js:81-88 | For two or more entries the first is `start` and the last is `stop`. |
| CommonFuncs.EqualDistanceSpacing | experiment/common_funcs.js:83-86 | Neighbouring entries differ by `(stop − start)/(nEntries − 1)`. |
| CommonFuncs.EqualDistanceWithin | experiment/common_funcs.js:81-88 | With `start ≤ stop` every entry lies in `[start, stop]`. |
| CommonFuncs.Circle.constructor | experiment/common_funcs.js:34-43 | A new circle is at its given position, which is also its original one, with the given shift, radius, colour and position index. |
| CommonFuncs.Circle.ChangePosition | experiment/common_funcs.js:51-54 | Changes only `x` and `y`. |
| CommonFuncs.Circle.ChangeRadius | experiment/common_funcs.js:55-57 | Changes only `rad`. |
| CommonFuncs.Circle.ChangeColor | experiment/common_funcs.js:58-60 | Changes only `color`. |
| CommonFuncs.Rectangle.constructor | experiment/common_funcs.js:63-69 | A new rectangle has the given geometry and colour, and that colour is also its original colour. |
| CommonFuncs.Rectangle.ChangeColor | experiment/common_funcs.js:76-78 | Changes only `color`. |
| CommonFuncs.WindowCountExact | experiment/common_funcs.js:115 | Window k is visited exactly when `k·twSize < maxFlashTime`. |
| CommonFuncs.JitteredGrid | experiment/common_funcs.js:116-127 | A jittered position array has one entry per grid point. |
| CommonFuncs.JitterWithin | experiment/common_funcs.js:116-127 | With draws in [0, 1), every position lies within `randomPosShift` of its grid point. |
| CommonFuncs.InsertPermutes | experiment/common_funcs.js:132-134 | Inserting adds exactly one element. |
| CommonFuncs.InsertSorted | experiment/common_funcs.js:132-134 | Inserting into a sorted list keeps it sorted. |
| CommonFuncs.SortSortsPermutation | experiment/common_funcs.js:132-134 | The sort returns an ascending permutation of the onsets. |
| CommonFuncs.SortedPermutationUnique | experiment/common_funcs.js:132-134 | Two ascending permutations of the same onsets are equal, so the sorted order is fully determined. |
| CommonFuncs.HeadIsMin | experiment/common_funcs.js:132-134 | The first sorted onset is the earliest. |
| CommonFuncs.DecodePosition | experiment/common_funcs.js:111-115 | The list position of (nT, cF, cJ, window) decodes back to the window, the jump condition and the flash condition. |
| CommonFuncs.TrialAtDigits | experiment/common_funcs.js:111-171 | The trial at a position is the one built for the conditions and window its digits name. |
| CommonFuncs.SerialCanvasLoop | experiment/common_funcs.js:90-180 | The nested loops return exactly the trial list: position by position, the trial of its repetition, conditions and window. |
| CommonFuncs.DrawOnsets | experiment/common_funcs.js:128-131 | The flash loop draws `tW + rand·twSize` for each of the `nFlashes` flashes. |
| CommonFuncs.BuildTrial | experiment/common_funcs.js:137-167 | The trial record is built from the draws, the grid and the conditions. |
| CommonFuncs.DesignShape | experiment/common_funcs.js:111-171 | The list has `nTrials · len(cFlash) · len(cJump) · #windows` trials, and `trialID` is the list position. |
| CommonFuncs.PositionInRange | experiment/common_funcs.js:111-115 | Every loop position falls inside the list. |
| CommonFuncs.DesignCovers | experiment/common_funcs.js:111-171 | Every repetition, condition pair and window has its trial, at its position, in nT→cF→cJ→tW order. |
| CommonFuncs.TrialCarriesConditions | experiment/common_funcs.js:137-167 | The record carries the conditions and its ID. `flashColor` is `#FFFFFF` exactly when the flash value is non-zero, `#666666` otherwise. A jump value other than 1 keeps the unshifted positions, and 1 uses the second draws. There are `nFlashes` onsets, in ascending order. |
| CommonFuncs.FlashesInWindow | experiment/common_funcs.js:128-134 | With draws in [0, 1), every flash onset lies in `[tW, tW + twSize)`. |
| CommonFuncs.SortedOnsetsInWindow | experiment/common_funcs.js:128-134 | The sorted onsets stay in the window. |
| CommonFuncs.SortWithin | experiment/common_funcs.js:132-134 | Sorting keeps every onset within the bounds the unsorted onsets had. |
| SerialTrial.Scaled | experiment/jspsych-6.3.1/plugins/canvas-manual-inhibition-serial.js:93-96 | Each coordinate is its degree value times `pixel_per_degree`. |
| SerialTrial.InitCircles | experiment/jspsych-6.3.1/plugins/canvas-manual-inhibition-serial.js:163-173 | One circle per position, each the circle built for its index. |
| SerialTrial.CirclesStartInPlace | experiment/jspsych-6.3.1/plugins/canvas-manual-inhibition-serial.js:163-173 | Circle i has position index i and starts at its original place. Its original and shifted coordinates are the given offsets from the window centre. |
| SerialTrial.MovedAll | experiment/jspsych-6.3.1/plugins/canvas-manual-inhibition-serial.js:176-179 | Every circle moves to its shifted place when `shift` holds, and to its original place otherwise. |
| SerialTrial.FirstHitFrom | experiment/jspsych-6.3.1/plugins/canvas-manual-inhibition-serial.js:181-182 | Finds the first circle the touch hits (both distances strictly inside the accepted distance), and reports none exactly when no circle is hit. |
| SerialTrial.UpdatesWithoutHit | experiment/jspsych-6.3.1/plugins/canvas-manual-inhibition-serial.js:176-189 | With no hit from index i on, the circles from i are moved, the touch stays and nothing is chosen. |
| SerialTrial.UpdatesWithHit | experiment/jspsych-6.3.1/plugins/canvas-manual-inhibition-serial.js:176-189 | At the first hit, that circle is spliced out and its position is chosen. The touch is cleared, and the circle right after it is not visited in that frame. |
| SerialTrial.UpdatesOutcome | experiment/jspsych-6.3.1/plugins/canvas-manual-inhibition-serial.js:175-191 | Either no circle is hit and all move, or exactly the first hit is removed and chosen. |
| SerialTrial.AtMostOneRemoval | experiment/jspsych-6.3.1/plugins/canvas-manual-inhibition-serial.js:175-191 | At most one circle is removed per call, and circles plus choices are as many as before. A choice needs a waiting touch and clears it. No choice leaves the touch. The positions are preserved as a multiset. |
| SerialTrial.RemovalKeepsBound | experiment/jspsych-6.3.1/plugins/canvas-manual-inhibition-serial.js:175-191 | Position indices below n stay below n, on screen and among the choices. |
| SerialTrial.RemovalPositions | experiment/jspsych-6.3.1/plugins/canvas-manual-inhibition-serial.js:183-185 | Splicing out circle h leaves the other positions in order. |
| SerialTrial.FlashStart | experiment/jspsych-6.3.1/plugins/canvas-manual-inhibition-serial.js:104-107 | The schedule starts with the first onset taken from the queue. Every scheduled onset is pending, and the state is consistent. |
| SerialTrial.FlashStepConsistent | experiment/jspsych-6.3.1/plugins/canvas-manual-inhibition-serial.js:193-209 | A frame keeps the schedule consistent: one on-time per flash started, one off-time per flash ended. A flash that ends consumes exactly its onset from the pending onsets. |
| SerialTrial.FlashStarts | experiment/jspsych-6.3.1/plugins/canvas-manual-inhibition-serial.js:199-202 | A flash-on time is recorded exactly when the onset has passed and no flash is on. |
| SerialTrial.NoFlashAfterSchedule | experiment/jspsych-6.3.1/plugins/canvas-manual-inhibition-serial.js:205 | Once the queue is exhausted, nothing is lit and a frame changes nothing. |
| SerialTrial.NothingBeforeTouch | experiment/jspsych-6.3.1/plugins/canvas-manual-inhibition-serial.js:194-197 | Before the first touch (undefined elapsed time) nothing is lit and nothing changes. |
| SerialTrial.FlashesBounded | experiment/jspsych-6.3.1/plugins/canvas-manual-inhibition-serial.js:199-206 | No more flashes start or end than were scheduled. |
| SerialTrial.ConsecutiveDifferences | experiment/jspsych-6.3.1/plugins/canvas-manual-inhibition-serial.js:241-243 | `newA` holds the differences between consecutive choices. |
| SerialTrial.InOrderIsRun | experiment/jspsych-6.3.1/plugins/canvas-manual-inhibition-serial.js:272 | `orderResponse` holds exactly when the choices are a run of consecutive positions, which is vacuously true for fewer than two choices. |
| SerialTrial.SuccessIsFlags | experiment/jspsych-6.3.1/plugins/canvas-manual-inhibition-serial.js:271-276 | Since every choice needs a touch, `success` holds exactly when the trial is not late, is in order, has no extra touches and is in landscape. |
| SerialTrial.SuccessIsLeftToRight | experiment/jspsych-6.3.1/plugins/canvas-manual-inhibition-serial.js:271-276 | A successful trial chose the dots 0, 1, …, nTargets − 1 in that order. |
| SerialTrial.ManualInhibitionTrial.constructor | experiment/jspsych-6.3.1/plugins/canvas-manual-inhibition-serial.js:93-107 | Coordinates, radius and accepted distance are scaled to pixels. There is one circle per target, and nTargets is the number of targets. The flash schedule takes its first onset from the queue. |
| SerialTrial.ManualInhibitionTrial.HandleInteraction | experiment/jspsych-6.3.1/plugins/canvas-manual-inhibition-serial.js:148-157 | `start_time` is set only by the first touch. Each touch appends exactly one x, one y and one timestamp and becomes the waiting selection. |
| SerialTrial.ManualInhibitionTrial.HandleRelease | experiment/jspsych-6.3.1/plugins/canvas-manual-inhibition-serial.js:159-161 | Each release appends its timestamp. |
| SerialTrial.ManualInhibitionTrial.GetCurrentPositionAndColor | experiment/jspsych-6.3.1/plugins/canvas-manual-inhibition-serial.js:193-209 | Reports whether the first onset has passed, and shows the flash colour exactly when the onset has passed and the flash has not yet lasted its duration. The schedule advances by one frame. |
| SerialTrial.ManualInhibitionTrial.PerformUpdates | experiment/jspsych-6.3.1/plugins/canvas-manual-inhibition-serial.js:175-191 | The circles, the waiting touch and the choices become those of one update pass. The rectangle takes the colour. |
| SerialTrial.ManualInhibitionTrial.EndTrial | experiment/jspsych-6.3.1/plugins/canvas-manual-inhibition-serial.js:229-276 | The outcome is set from the choices, the touch count, nTargets and the screen orientation. |
| SerialTrial.ManualInhibitionTrial.Animate | experiment/jspsych-6.3.1/plugins/canvas-manual-inhibition-serial.js:211-227 | One frame advances the schedule, updates the circles and records the timestamp. The trial ends exactly when time is up or all nTargets are chosen, and then the outcome is set. Before the first touch only `nTargets == 0` ends it. |

## Left out

- File and CSV reading, JSON string parsing (`helper.load_strings`), all `logging` and `print`: I/O. Cells are taken as already parsed numbers, lists or text.
- `transform_long_dataset` and the other `split_data` components: they rely entirely on helpers (`get_long_column`, `stack_unique_cols`) that are not part of this model, or on plain component filters.
- `get_position_at_response_time`, `subtract_arrays_missing_values`, `pythagoras`, `get_angles_from_list`: not part of this model. The columns of the first two enter `perform_space_alignments` as parameters (`ForeignColumns`), and the vector distance and angle columns are not computed.
- Preprocessing.PerformTimeAlignments: `align_to_multiple_values_filter_first` is not part of this model. Its two calls at analysis/preprocessing.py:101-102 are skipped, so the model neither adds their two `animation_timestamps_to_…` columns nor raises what they might raise.
- The exponential in the causal-rate kernel: floating-point transcendental. The kernel is a function parameter, and non-negativity is assumed only where a lemma says so.
- Floating-point rounding: all arithmetic is on exact reals.
- numpy's NaN is modelled for an empty baseline window, which gives an `Undefined` curve. numpy's inf is not represented. The places where it would arise are listed in the lines below and under HelperFuncs.CausalRate.
- SubjectLevelStats.NormalizeToBaseline: a zero baseline gives an `Undefined` curve. numpy gives +inf where the rate is positive and NaN where it is 0, with only a warning. When the search window then holds only positive rates, `run_metrics_pipeline` appends a row with minimum inf, magnitude −inf and bottom 0. The model's MetricsFor reports IndexError for that curve instead. With a zero rate in the search window, the minimum is NaN and both raise IndexError.
- Frames.ApplyScalar: division by zero is reported as ZeroDivision. numpy divides an array by a zero scalar without raising (for example the dva conversion at analysis/preprocessing.py:158 with a `px2dva` of 0) and yields inf or NaN.
- SubjectLevelStats.OneSubjectInhibition.ComputeRates: a per-window count of 0 is reported as ZeroDivision, where numpy would yield inf. Every count of a non-empty condition is at least 1 (SubjectLevelStats.ConditionPipelineSucceeds).
- SubjectLevelStats.OneSubjectInhibition.ComputeRates: masking reads `n_trials[name]`, which is the constructor's `[]` until `run_rate_pipeline` sets it. The model then reports ValueError. numpy multiplies the rate by an empty boolean array (analysis/subject_level_stats.py:222). On an axis of 0 or 1 points this broadcasts to `[]`, which the source stores. On a longer axis numpy raises ValueError too. Both cases arise only when `compute_rates` is called before `run_rate_pipeline` has reached the condition.
- SubjectLevelStats.NormalizeAllToNull: a rate whose length differs from the null curve's raises ValueError. numpy broadcasts an operand of length 1. So on a one-point axis, a rate still at the constructor's `[]` divided by the null curve gives `[]` in the source (analysis/subject_level_stats.py:273). Every rate the rate pipeline stores has the axis length, so the two disagree only over entries the pipeline has not reached.
- SubjectLevelStats.NormalizeRatesToNullCondition: unequal lengths raise ValueError. numpy broadcasts a length-1 operand against the other, including against a length-0 one. The model does not represent that broadcast.
- Frames.ColumnOp: a frame is its sequence of rows, and a column exists when every row has it. A frame with no rows therefore has every column. A column read on an empty frame yields an empty column, where pandas raises KeyError for a column the frame lacks (for example at analysis/preprocessing.py:65 and :202). The same holds for Frames.ColumnWith, HelperFuncs.AlignedColumn, HelperFuncs.AlignToStart, Preprocessing.FormatsEnsuredRows and Preprocessing.LabelConditions. Their "missing column raises KeyError" clauses apply to frames with at least one row.
- Frames.Apply: two arrays of different lengths raise ValueError even when one of them has length 1. numpy would broadcast the single element.
- HelperFuncs.AlignToStart: `json.loads` is the parameter `decode`, whose results are restricted to the model's cells (a number, an array of numbers or a string). A JSON object, boolean or null is not represented.
- HelperFuncs.CausalRate: requires positive trial counts and α ≠ 0. Every caller passes counts ≥ 1 and a non-zero α, because the `or` default replaces 0. A zero count would give numpy's inf, which the model does not represent.
- HelperFuncs.CleanDataframe: a row lacking `test_part` or `success` is dropped. pandas would raise AttributeError for a missing column.
- Attribute-style column access (`df.windowWidth`, `df.flashShown`) raises AttributeError in pandas when the column is missing. The model reports that case as KeyError of the column.
- SerialTrial.ManualInhibitionTrial.constructor: the flash schedule is always a list of onsets. The plugin's default `change_onset` is the scalar 500 (experiment/jspsych-6.3.1/plugins/canvas-manual-inhibition-serial.js:43-47), and `Object.assign([], 500)` at line 104 turns it into an empty queue. A trial left at the default therefore never flashes. That is the model's empty schedule, and the model does not represent the scalar.
- SubjectLevelStats.OneSubjectInhibition.NormalizeToNullCondition: every stored rate is treated as an ndarray. In the source, a rate still held as a Python list makes the clamp at analysis/subject_level_stats.py:271 raise TypeError. Such a rate is the constructor's `[]` for a condition the rate pipeline has not reached, or the unmasked rate that a failing iteration stored. After a successful RunRatePipeline, which requires masked rates, every rate is an ndarray and the model agrees with the source. The normalization itself is subject to the broadcasting gap in the two lines below.
- `Math.random`: the random numbers are the parameter `rand`, indexed in the order the loops draw them.
- Browser and UI work is not modelled: canvas drawing, `requestAnimationFrame`/`cancelAnimationFrame`, `setTimeout`, event listeners, `navigator`/`window` queries, `check_screen_validity`, `switch_custom_theme`, the `draw` methods and `jsPsych.finishTrial`. Event coordinates and timestamps, and the window size, are parameters.
- The `trial_data` record fields that only copy values (times, coordinates, user agent) are not modelled. The outcome flags are.
- SerialTrial.InitCircles: requires the four position arrays to have equal length. JavaScript would read `undefined` past a shorter array.
- CommonFuncs.EqualDistanceArray: requires `nEntries ≠ 1`, where JavaScript divides by zero. `Serial_canvas_loop` therefore requires `nDots ≠ 1`. It also requires a positive window size whenever `maxFlashTime > 0`, because otherwise its window loop never ends.
- CommonFuncs.WindowCountExact: the window loop's repeated `tW + twSize` is taken as the exact multiples `k·twSize`, without float accumulation.
- The `OneSubject` data loaders, `OneSubjectErrorSize`, `assert_condition` and `analysis/loading_data.py`: data loading, or code marked unfinished that calls functions which are not defined.
- The `NotImplementedError` handler around `get_latency` is kept as it is. `get_latency` can only raise IndexError, which that handler does not catch. SubjectLevelStats.LatencyAlwaysFound shows this cannot happen on a defined curve with a non-empty search window.

## Findings

| source | as written | input that shows it | evidently intended | confidence | as-written member | corrected member |
|---|---|---|---|---|---|---|
| analysis/subject_level_stats.py:153-156 | With `mask_rate=False`, `compute_rates` stores the plain Python list that `causal_rate` returns. `compute_baseline` then indexes it with the index array from `np.where` (`rates[indexes]`), which a list refuses with TypeError. | `run_rate_pipeline(mask_rate=False)` on any data with a non-empty condition | The rate is normalised to its baseline whether or not it was masked, as it is when masking turns it into an ndarray. | not executed | SubjectLevelStats.UnmaskedPipelineRaises | SubjectLevelStats.NormalizedBaselineIsOne |

The class follows the code as written on this path. With `mask_rate=False`, `run_rate_pipeline` cannot succeed (SubjectLevelStats.OneSubjectInhibition.RunRatePipeline). The first iteration that gets as far as its rate stores the unmasked rate under its name and raises TypeError, which ends the call (SubjectLevelStats.OneSubjectInhibition.ProcessCondition, SubjectLevelStats.ConditionPipelineSucceeds). The corrected normalization, SubjectLevelStats.NormalizeToBaseline, is the one applied to masked rates.
