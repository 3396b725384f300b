/**
 * The experiment's shared functions: the calibration check, the evenly spaced
 * grid of dot positions, the drawable circle and rectangle, and the builder of
 * the trial list (every repetition of every flash and jump condition in every
 * time window, with jittered dot positions and random flash onsets).
 */
module CommonFuncs {

  // ---------------------------------------------------------------------------
  // check_calibration_validity
  // ---------------------------------------------------------------------------

  /** What the virtual-chinrest calibration measured. */
  datatype CalibrationData = CalibrationData(winWidthDeg: real, viewDistMm: real)

  /** The narrowest screen, in degrees of visual angle, the calibration accepts. */
  const MinWidthDeg: real := 17.0
  /** The width the stimuli themselves need. */
  const StimulusWidthDeg: real := 14.0
  const MinViewDistMm: real := 200.0
  const MaxViewDistMm: real := 600.0

  /** A screen at least 17 degrees wide, viewed from between 20 and 60 cm. */
  predicate CalibrationValid(c: CalibrationData)
  {
    c.winWidthDeg >= MinWidthDeg && c.viewDistMm >= MinViewDistMm && c.viewDistMm <= MaxViewDistMm
  }

  /** Every accepted screen shows the stimuli with room to spare. */
  lemma CalibrationRegion(c: CalibrationData)
    ensures CalibrationValid(c) ==> c.winWidthDeg > StimulusWidthDeg
  {
  }

  // ---------------------------------------------------------------------------
  // make_equal_distance_array
  // ---------------------------------------------------------------------------

  /** The distance between neighbouring entries; one entry would divide by zero. */
  function Step(start: real, stop: real, n: nat): real
    requires n != 1
  {
    (stop - start) / (n as real - 1.0)
  }

  /** The `n` entries of make_equal_distance_array: entry i is start + i * step. */
  function EqualDistanceArray(start: real, stop: real, n: nat): (arr: seq<real>)
    requires n != 1
    ensures |arr| == n
  {
    seq(n, i requires 0 <= i < n => start + Step(start, stop, n) * i as real)
  }

  method MakeEqualDistanceArray(start: real, stop: real, n: nat) returns (arr: seq<real>)
    requires n != 1
    ensures arr == EqualDistanceArray(start, stop, n)
  {
    var step := (stop - start) / (n as real - 1.0);
    arr := [];
    assert step == Step(start, stop, n);
    for i := 0 to n
      invariant |arr| == i
      invariant forall j :: 0 <= j < i ==> arr[j] == start + step * j as real
    {
      arr := arr + [start + step * i as real];
    }
    assert forall j :: 0 <= j < n ==> arr[j] == EqualDistanceArray(start, stop, n)[j];
  }

  /** With two or more entries the array runs from `start` to `stop` exactly. */
  lemma EqualDistanceEnds(start: real, stop: real, n: nat)
    requires n >= 2
    ensures EqualDistanceArray(start, stop, n)[0] == start
    ensures EqualDistanceArray(start, stop, n)[n - 1] == stop
  {
    var k := n as real - 1.0;
    assert (n - 1) as real == k;
    assert EqualDistanceArray(start, stop, n)[n - 1] == start + Step(start, stop, n) * k;
    assert Step(start, stop, n) * k == stop - start;
  }

  /** Neighbouring entries are one step apart. */
  lemma EqualDistanceSpacing(start: real, stop: real, n: nat, i: nat)
    requires n != 1 && i + 1 < n
    ensures EqualDistanceArray(start, stop, n)[i + 1] - EqualDistanceArray(start, stop, n)[i] == Step(start, stop, n)
  {
  }

  /** From a lower start to a higher stop, every entry lies between the two. */
  lemma EqualDistanceWithin(start: real, stop: real, n: nat, i: nat)
    requires n >= 2 && i < n && start <= stop
    ensures start <= EqualDistanceArray(start, stop, n)[i] <= stop
  {
    var k := n as real - 1.0;
    var step := Step(start, stop, n);
    assert step >= 0.0;
    assert step * i as real <= step * k;
    assert step * k == stop - start;
  }

  // ---------------------------------------------------------------------------
  // Circle and Rectangle
  // ---------------------------------------------------------------------------

  /**
   * A dot: where it is drawn now, where it starts, where it jumps to, its size,
   * colour and its place in the row of dots.
   */
  class Circle {
    var x: real
    var y: real
    var xOriginal: real
    var yOriginal: real
    var xShift: real
    var yShift: real
    var rad: real
    var color: string
    var position: int

    constructor (x: real, xShift: real, y: real, yShift: real, rad: real, color: string, position: int)
      ensures this.x == x && this.y == y && xOriginal == x && yOriginal == y
      ensures this.xShift == xShift && this.yShift == yShift
      ensures this.rad == rad && this.color == color && this.position == position
    {
      this.x := x;
      this.y := y;
      xOriginal := x;
      yOriginal := y;
      this.xShift := xShift;
      this.yShift := yShift;
      this.rad := rad;
      this.color := color;
      this.position := position;
    }

    /** Moves the dot; where it started and where it jumps to stay as they were. */
    method ChangePosition(x: real, y: real)
      modifies this`x, this`y
      ensures this.x == x && this.y == y
    {
      this.x := x;
      this.y := y;
    }

    method ChangeRadius(rad: real)
      modifies this`rad
      ensures this.rad == rad
    {
      this.rad := rad;
    }

    method ChangeColor(color: string)
      modifies this`color
      ensures this.color == color
    {
      this.color := color;
    }
  }

  /** The full-screen rectangle whose colour shows the flash. */
  class Rectangle {
    var x: real
    var y: real
    var width: real
    var height: real
    var color: string
    var originalColor: string

    constructor (x: real, y: real, width: real, height: real, color: string)
      ensures this.x == x && this.y == y && this.width == width && this.height == height
      ensures this.color == color && originalColor == color
    {
      this.x := x;
      this.y := y;
      this.width := width;
      this.height := height;
      this.color := color;
      originalColor := color;
    }

    /** Recolours the rectangle; its original colour is kept. */
    method ChangeColor(color: string)
      modifies this`color
      ensures this.color == color
    {
      this.color := color;
    }
  }

  // ---------------------------------------------------------------------------
  // Serial_canvas_loop
  // ---------------------------------------------------------------------------

  /** The arguments of Serial_canvas_loop. */
  datatype DesignParams = DesignParams(
    nTrials: nat, cFlash: seq<real>, cJump: seq<real>, maxFlashTime: real, twSize: real,
    minXPos: real, maxXPos: real, minYPos: real, maxYPos: real, nDots: nat, randomPosShift: real, nFlashes: nat)

  /**
   * The loop over time windows ends only if the window size is positive (or
   * there is no window at all), and a grid of one dot would divide by zero.
   */
  predicate ValidParams(p: DesignParams)
  {
    (p.maxFlashTime <= 0.0 || p.twSize > 0.0) && p.nDots != 1
  }

  /** One entry of the trial list. */
  datatype Trial = Trial(
    flashTime: seq<real>, targetPosX: seq<real>, targetPosY: seq<real>,
    newTargetPosX: seq<real>, newTargetPosY: seq<real>,
    flashShown: real, stimJumps: real, flashColor: string, trialID: nat)

  const FlashWhite: string := "#FFFFFF"
  const FlashGrey: string := "#666666"

  /** The number of windows tW = 0, twSize, 2 * twSize, ... below maxFlashTime. */
  function WindowCount(maxFlashTime: real, twSize: real): nat
    requires maxFlashTime <= 0.0 || twSize > 0.0
  {
    if maxFlashTime <= 0.0 then 0
    else
      var r := maxFlashTime / twSize;
      assert r > 0.0;
      if r.Floor as real < r then r.Floor + 1 else r.Floor
  }

  lemma RealMulMono(x: real, y: real, k: real)
    requires x <= y && k >= 0.0
    ensures x * k <= y * k
  {
    assert (y - x) * k >= 0.0;
  }

  lemma RealMulStrict(x: real, y: real, k: real)
    requires x < y && k > 0.0
    ensures x * k < y * k
  {
    assert (y - x) * k > 0.0;
  }

  /** For a positive width, x widths stay below m exactly when x is below m / width. */
  lemma BelowQuotient(x: real, m: real, tw: real)
    requires tw > 0.0
    ensures x * tw < m <==> x < m / tw
  {
    var r := m / tw;
    assert r * tw == m;
    if x < r {
      RealMulStrict(x, r, tw);
    } else {
      RealMulMono(r, x, tw);
    }
  }

  /** Window `k` starts below maxFlashTime exactly when k is below the window count. */
  lemma WindowCountExact(maxFlashTime: real, twSize: real, k: nat)
    requires maxFlashTime <= 0.0 || twSize > 0.0
    ensures k < WindowCount(maxFlashTime, twSize) <==> maxFlashTime > 0.0 && k as real * twSize < maxFlashTime
  {
    if maxFlashTime > 0.0 {
      BelowQuotient(k as real, maxFlashTime, twSize);
    }
  }

  /** The number of trials: repetitions x flash conditions x jump conditions x windows. */
  function TrialCount(p: DesignParams): nat
    requires ValidParams(p)
  {
    p.nTrials * |p.cFlash| * |p.cJump| * WindowCount(p.maxFlashTime, p.twSize)
  }

  /** How many random numbers one trial draws: two per dot in x, two in y, one per flash. */
  function DrawsPerTrial(p: DesignParams): nat
  {
    4 * p.nDots + p.nFlashes
  }

  /** Where window w begins. */
  function WindowStart(p: DesignParams, w: nat): real
  {
    w as real * p.twSize
  }

  /** The index of the first random number trial `id` draws. */
  function FirstDraw(p: DesignParams, id: nat): nat
  {
    id * DrawsPerTrial(p)
  }

  /** A grid point shifted by up to randomPosShift, with `r` the random number in [0, 1). */
  function Jittered(r: real, shift: real, grid: real): real
  {
    (r * 2.0 - 1.0) * shift + grid
  }

  /** Every grid point jittered, drawing every other random number from `first` on. */
  function JitteredGrid(grid: seq<real>, shift: real, rand: nat -> real, first: nat): (ps: seq<real>)
    ensures |ps| == |grid|
  {
    seq(|grid|, t requires 0 <= t < |grid| => Jittered(rand(first + 2 * t), shift, grid[t]))
  }

  /** The flash onsets of window tW before sorting: tW plus a random part of the window. */
  function RawOnsets(p: DesignParams, tW: real, rand: nat -> real, first: nat): (os: seq<real>)
    ensures |os| == p.nFlashes
  {
    seq(p.nFlashes, f requires 0 <= f < p.nFlashes => tW + rand(first + f) * p.twSize)
  }

  predicate Sorted(xs: seq<real>)
  {
    forall i, j :: 0 <= i < j < |xs| ==> xs[i] <= xs[j]
  }

  /** `x` put in its place in a sequence. */
  function Insert(x: real, xs: seq<real>): (r: seq<real>)
    ensures |r| == |xs| + 1
  {
    if xs == [] then [x]
    else if x <= xs[0] then [x] + xs
    else [xs[0]] + Insert(x, xs[1..])
  }

  /** The ascending numeric order `sort((a, b) => a - b)` produces. */
  function Sort(xs: seq<real>): (r: seq<real>)
    ensures |r| == |xs|
  {
    if xs == [] then [] else Insert(xs[0], Sort(xs[1..]))
  }

  lemma {:induction false} InsertPermutes(x: real, xs: seq<real>)
    ensures multiset(Insert(x, xs)) == multiset(xs) + multiset{x}
  {
    if xs != [] && x > xs[0] {
      InsertPermutes(x, xs[1..]);
      assert xs == [xs[0]] + xs[1..];
    }
  }

  lemma {:induction false} InsertAbove(x: real, xs: seq<real>, lo: real)
    requires lo <= x && forall i :: 0 <= i < |xs| ==> lo <= xs[i]
    ensures forall i :: 0 <= i < |xs| + 1 ==> lo <= Insert(x, xs)[i]
  {
    if xs != [] && x > xs[0] {
      InsertAbove(x, xs[1..], lo);
    }
  }

  lemma {:induction false} InsertSorted(x: real, xs: seq<real>)
    requires Sorted(xs)
    ensures Sorted(Insert(x, xs))
  {
    if xs != [] && x > xs[0] {
      InsertSorted(x, xs[1..]);
      InsertAbove(x, xs[1..], xs[0]);
    }
  }

  /** Sorting returns the same numbers in ascending order. */
  lemma {:induction false} SortSortsPermutation(xs: seq<real>)
    ensures Sorted(Sort(xs)) && multiset(Sort(xs)) == multiset(xs)
  {
    if xs != [] {
      SortSortsPermutation(xs[1..]);
      InsertSorted(xs[0], Sort(xs[1..]));
      InsertPermutes(xs[0], Sort(xs[1..]));
      assert xs == [xs[0]] + xs[1..];
    }
  }

  /**
   * Two ascending orders of the same numbers agree, so any correct sort, the
   * browser's included, yields what Sort yields.
   */
  lemma {:induction false} SortedPermutationUnique(a: seq<real>, b: seq<real>)
    requires Sorted(a) && Sorted(b) && multiset(a) == multiset(b)
    ensures a == b
  {
    assert |a| == |multiset(a)| == |multiset(b)| == |b|;
    if a != [] {
      HeadIsMin(a, b[0]);
      HeadIsMin(b, a[0]);
      var h := a[0];
      assert b[0] == h;
      assert a == [h] + a[1..] && b == [h] + b[1..];
      assert multiset(a[1..]) == multiset(a) - multiset{h};
      assert multiset(b[1..]) == multiset(b) - multiset{h};
      assert Sorted(a[1..]) && Sorted(b[1..]);
      SortedPermutationUnique(a[1..], b[1..]);
    }
  }

  /** The head of an ascending sequence is its least element. */
  lemma HeadIsMin(a: seq<real>, x: real)
    requires Sorted(a) && x in multiset(a)
    ensures a[0] <= x
  {
    assert x in a;
  }

  /**
   * Trial number `id` of the list, for flash condition cF, jump condition cJ
   * and the window starting at tW, using the random numbers from `base` on.
   */
  function MakeTrial(p: DesignParams, rand: nat -> real, posX: seq<real>, posY: seq<real>,
                     cF: nat, cJ: nat, tW: real, base: nat, id: nat): Trial
    requires cF < |p.cFlash| && cJ < |p.cJump|
  {
    var targetX := JitteredGrid(posX, p.randomPosShift, rand, base);
    var newX := JitteredGrid(posX, p.randomPosShift, rand, base + 1);
    var targetY := JitteredGrid(posY, p.randomPosShift, rand, base + 2 * |posX|);
    var newY := JitteredGrid(posY, p.randomPosShift, rand, base + 2 * |posX| + 1);
    Trial(Sort(RawOnsets(p, tW, rand, base + 2 * |posX| + 2 * |posY|)),
          targetX, targetY,
          if p.cJump[cJ] == 1.0 then newX else targetX,
          if p.cJump[cJ] == 1.0 then newY else targetY,
          p.cFlash[cF], p.cJump[cJ],
          if p.cFlash[cF] != 0.0 then FlashWhite else FlashGrey,
          id)
  }

  /** The grid of dot positions in x and in y. */
  function GridX(p: DesignParams): seq<real>
    requires ValidParams(p)
  {
    EqualDistanceArray(p.minXPos, p.maxXPos, p.nDots)
  }

  function GridY(p: DesignParams): seq<real>
    requires ValidParams(p)
  {
    EqualDistanceArray(p.minYPos, p.maxYPos, p.nDots)
  }

  /**
   * The trial at position `id` of the list: the position counts windows
   * fastest, then jump conditions, then flash conditions, then repetitions.
   */
  function TrialAt(p: DesignParams, rand: nat -> real, id: nat): Trial
    requires ValidParams(p) && |p.cFlash| > 0 && |p.cJump| > 0 && WindowCount(p.maxFlashTime, p.twSize) > 0
  {
    var windows := WindowCount(p.maxFlashTime, p.twSize);
    var w := id % windows;
    var cJ := (id / windows) % |p.cJump|;
    var cF := (id / windows / |p.cJump|) % |p.cFlash|;
    MakeTrial(p, rand, GridX(p), GridY(p), cF, cJ, WindowStart(p, w), FirstDraw(p, id), id)
  }

  /** The list Serial_canvas_loop returns. */
  function Design(p: DesignParams, rand: nat -> real): (trials: seq<Trial>)
    requires ValidParams(p)
  {
    if |p.cFlash| == 0 || |p.cJump| == 0 || WindowCount(p.maxFlashTime, p.twSize) == 0 then []
    else seq(TrialCount(p), id requires 0 <= id < TrialCount(p) => TrialAt(p, rand, id))
  }

  lemma MulMono(x: int, y: int, k: nat)
    requires x <= y
    ensures x * k <= y * k
  {
    assert (y - x) * k >= 0;
  }

  /** Dividing a mixed-radix number by its lowest digit's radix drops that digit. */
  lemma DivModDigit(a: nat, digit: nat, radix: nat)
    requires digit < radix
    ensures (a * radix + digit) / radix == a && (a * radix + digit) % radix == digit
  {
    var n := a * radix + digit;
    var q := n / radix;
    var r := n % radix;
    assert n == q * radix + r;
    if q > a {
      MulMono(a + 1, q, radix);
      assert false;
    } else if q < a {
      MulMono(q + 1, a, radix);
      assert false;
    }
  }

  /** A trial's position, counting windows fastest, then jump and flash conditions, then repetitions. */
  function Position(nF: nat, nJ: nat, windows: nat, nT: nat, cF: nat, cJ: nat, w: nat): nat
  {
    ((nT * nF + cF) * nJ + cJ) * windows + w
  }

  /** The position decodes back to its window and conditions. */
  lemma DecodePosition(nF: nat, nJ: nat, windows: nat, nT: nat, cF: nat, cJ: nat, w: nat)
    requires cF < nF && cJ < nJ && w < windows
    ensures Position(nF, nJ, windows, nT, cF, cJ, w) % windows == w
    ensures (Position(nF, nJ, windows, nT, cF, cJ, w) / windows) % nJ == cJ
    ensures (Position(nF, nJ, windows, nT, cF, cJ, w) / windows / nJ) % nF == cF
  {
    var a := (nT * nF + cF) * nJ + cJ;
    DivModDigit(a, w, windows);
    DivModDigit(nT * nF + cF, cJ, nJ);
    DivModDigit(nT, cF, nF);
  }

  /** Some trial exists: every factor of the trial count is positive. */
  predicate NonEmptyDesign(p: DesignParams)
    requires ValidParams(p)
  {
    |p.cFlash| > 0 && |p.cJump| > 0 && WindowCount(p.maxFlashTime, p.twSize) > 0
  }

  /** `stimuli` is the beginning of the trial list. */
  predicate Produced(p: DesignParams, rand: nat -> real, stimuli: seq<Trial>)
    requires ValidParams(p)
  {
    forall j :: 0 <= j < |stimuli| ==> NonEmptyDesign(p) && stimuli[j] == TrialAt(p, rand, j)
  }

  /** The trial built for window w of a repetition and pair of conditions is the one at its position. */
  lemma ProducedExtend(p: DesignParams, rand: nat -> real, stimuli: seq<Trial>, trial: Trial,
                       nT: nat, cF: nat, cJ: nat, w: nat)
    requires ValidParams(p) && Produced(p, rand, stimuli)
    requires cF < |p.cFlash| && cJ < |p.cJump| && w < WindowCount(p.maxFlashTime, p.twSize)
    requires |stimuli| == Position(|p.cFlash|, |p.cJump|, WindowCount(p.maxFlashTime, p.twSize), nT, cF, cJ, w)
    requires trial == MakeTrial(p, rand, GridX(p), GridY(p), cF, cJ, WindowStart(p, w), FirstDraw(p, |stimuli|), |stimuli|)
    ensures Produced(p, rand, stimuli + [trial])
  {
    DecodePosition(|p.cFlash|, |p.cJump|, WindowCount(p.maxFlashTime, p.twSize), nT, cF, cJ, w);
    TrialAtDigits(p, rand, |stimuli|, cF, cJ, w);
    var out := stimuli + [trial];
    forall j | 0 <= j < |out|
      ensures NonEmptyDesign(p) && out[j] == TrialAt(p, rand, j)
    {
      if j < |stimuli| {
        assert out[j] == stimuli[j];
      }
    }
  }

  /** The trial at a position is the one of the window and conditions its digits name. */
  lemma TrialAtDigits(p: DesignParams, rand: nat -> real, id: nat, cF: nat, cJ: nat, w: nat)
    requires ValidParams(p) && NonEmptyDesign(p) && cF < |p.cFlash| && cJ < |p.cJump|
    requires id % WindowCount(p.maxFlashTime, p.twSize) == w
    requires (id / WindowCount(p.maxFlashTime, p.twSize)) % |p.cJump| == cJ
    requires (id / WindowCount(p.maxFlashTime, p.twSize) / |p.cJump|) % |p.cFlash| == cF
    ensures TrialAt(p, rand, id) == MakeTrial(p, rand, GridX(p), GridY(p), cF, cJ, WindowStart(p, w), FirstDraw(p, id), id)
  {
    var windows := WindowCount(p.maxFlashTime, p.twSize);
    var w', cJ', cF' := id % windows, (id / windows) % |p.cJump|, (id / windows / |p.cJump|) % |p.cFlash|;
    assert w' == w && cJ' == cJ && cF' == cF;
  }

  /**
   * Serial_canvas_loop: four nested loops over repetitions, flash conditions,
   * jump conditions and time windows, drawing the random numbers in the order
   * the trials use them.
   */
  method SerialCanvasLoop(p: DesignParams, rand: nat -> real) returns (stimuli: seq<Trial>)
    requires ValidParams(p)
    ensures stimuli == Design(p, rand)
  {
    var posX := MakeEqualDistanceArray(p.minXPos, p.maxXPos, p.nDots);
    var posY := MakeEqualDistanceArray(p.minYPos, p.maxYPos, p.nDots);
    ghost var windows := WindowCount(p.maxFlashTime, p.twSize);
    var nF, nJ := |p.cFlash|, |p.cJump|;
    var drawn: nat := 0;
    stimuli := [];
    for nT := 0 to p.nTrials
      invariant |stimuli| == nT * nF * nJ * windows && drawn == |stimuli| * DrawsPerTrial(p)
      invariant Produced(p, rand, stimuli)
    {
      for cF := 0 to nF
        invariant |stimuli| == (nT * nF + cF) * nJ * windows && drawn == |stimuli| * DrawsPerTrial(p)
        invariant Produced(p, rand, stimuli)
      {
        for cJ := 0 to nJ
          invariant |stimuli| == Position(nF, nJ, windows, nT, cF, cJ, 0) && drawn == |stimuli| * DrawsPerTrial(p)
          invariant Produced(p, rand, stimuli)
        {
          stimuli, drawn := AppendWindows(p, rand, posX, posY, nT, cF, cJ, stimuli, drawn);
          assert ((nT * nF + cF) * nJ + cJ) * windows + windows == ((nT * nF + cF) * nJ + (cJ + 1)) * windows;
        }
        assert ((nT * nF + cF) * nJ + nJ) * windows == (nT * nF + (cF + 1)) * nJ * windows;
      }
      assert (nT * nF + nF) * nJ * windows == (nT + 1) * nF * nJ * windows;
    }
    if NonEmptyDesign(p) {
      assert |stimuli| == TrialCount(p);
    } else {
      assert nF == 0 || nJ == 0 || windows == 0;
    }
  }

  /** The next window begins one width later. */
  lemma WindowStartNext(p: DesignParams, w: nat)
    ensures WindowStart(p, w + 1) == WindowStart(p, w) + p.twSize
  {
    var x := w as real;
    var y := (w + 1) as real;
    assert y == x + 1.0;
    RealDistributes(x, y, p.twSize);
  }

  lemma RealDistributes(x: real, y: real, k: real)
    requires y == x + 1.0
    ensures y * k == x * k + k
  {
  }

  /** The next trial's random numbers begin right after this trial's. */
  lemma FirstDrawNext(p: DesignParams, id: nat)
    ensures FirstDraw(p, id + 1) == FirstDraw(p, id) + DrawsPerTrial(p)
  {
    MulSucc(id, DrawsPerTrial(p));
  }

  lemma MulSucc(x: nat, k: nat)
    ensures (x + 1) * k == x * k + k
  {
  }

  /** The innermost loop: one trial per time window, for one repetition and pair of conditions. */
  method AppendWindows(p: DesignParams, rand: nat -> real, posX: seq<real>, posY: seq<real>,
                       ghost nT: nat, cF: nat, cJ: nat, stimuli: seq<Trial>, drawn: nat)
    returns (out: seq<Trial>, drawnAfter: nat)
    requires ValidParams(p) && cF < |p.cFlash| && cJ < |p.cJump|
    requires posX == GridX(p) && posY == GridY(p)
    requires |stimuli| == Position(|p.cFlash|, |p.cJump|, WindowCount(p.maxFlashTime, p.twSize), nT, cF, cJ, 0)
    requires drawn == |stimuli| * DrawsPerTrial(p) && Produced(p, rand, stimuli)
    ensures |out| == |stimuli| + WindowCount(p.maxFlashTime, p.twSize)
    ensures drawnAfter == |out| * DrawsPerTrial(p) && Produced(p, rand, out)
  {
    ghost var windows := WindowCount(p.maxFlashTime, p.twSize);
    out, drawnAfter := stimuli, drawn;
    var id := |stimuli|;
    var tW := 0.0;
    ghost var w: nat := 0;
    WindowCountExact(p.maxFlashTime, p.twSize, 0);
    while tW < p.maxFlashTime
      invariant tW == WindowStart(p, w) && w <= windows
      invariant id == |out| == |stimuli| + w && drawnAfter == FirstDraw(p, id)
      invariant Produced(p, rand, out)
      decreases windows - w
    {
      WindowCountExact(p.maxFlashTime, p.twSize, w);
      var trial := NextTrial(p, rand, posX, posY, nT, cF, cJ, w, tW, drawnAfter, out);
      FirstDrawNext(p, id);
      WindowStartNext(p, w);
      out := out + [trial];
      drawnAfter := drawnAfter + DrawsPerTrial(p);
      id := id + 1;
      tW := tW + p.twSize;
      w := w + 1;
    }
    WindowCountExact(p.maxFlashTime, p.twSize, w);
  }

  /**
   * The jittered positions of every dot of one grid: for each dot, first the
   * target position, then the position it may jump to, each from its own
   * random number.
   */
  method JitterGrid(grid: seq<real>, shift: real, rand: nat -> real, first: nat)
    returns (target: seq<real>, jumped: seq<real>)
    ensures target == JitteredGrid(grid, shift, rand, first)
    ensures jumped == JitteredGrid(grid, shift, rand, first + 1)
  {
    target, jumped := [], [];
    var k := first;
    for t := 0 to |grid|
      invariant k == first + 2 * t && |target| == |jumped| == t
      invariant forall j :: 0 <= j < t ==> target[j] == Jittered(rand(first + 2 * j), shift, grid[j])
      invariant forall j :: 0 <= j < t ==> jumped[j] == Jittered(rand(first + 1 + 2 * j), shift, grid[j])
    {
      target := target + [(rand(k) * 2.0 - 1.0) * shift + grid[t]];
      jumped := jumped + [(rand(k + 1) * 2.0 - 1.0) * shift + grid[t]];
      k := k + 2;
    }
  }

  /** The next trial of the list, built for window w of a repetition and pair of conditions. */
  method NextTrial(p: DesignParams, rand: nat -> real, posX: seq<real>, posY: seq<real>,
                   ghost nT: nat, cF: nat, cJ: nat, ghost w: nat, tW: real, drawn: nat, stimuli: seq<Trial>)
    returns (trial: Trial)
    requires ValidParams(p) && Produced(p, rand, stimuli) && posX == GridX(p) && posY == GridY(p)
    requires cF < |p.cFlash| && cJ < |p.cJump| && w < WindowCount(p.maxFlashTime, p.twSize)
    requires |stimuli| == Position(|p.cFlash|, |p.cJump|, WindowCount(p.maxFlashTime, p.twSize), nT, cF, cJ, w)
    requires tW == WindowStart(p, w) && drawn == FirstDraw(p, |stimuli|)
    ensures Produced(p, rand, stimuli + [trial])
  {
    trial := BuildTrial(p, rand, posX, posY, cF, cJ, tW, drawn, |stimuli|);
    ProducedExtend(p, rand, stimuli, trial, nT, cF, cJ, w);
  }

  /** The nFlashes flash onsets of window tW, in the order they are drawn. */
  method DrawOnsets(p: DesignParams, tW: real, rand: nat -> real, first: nat) returns (onsets: seq<real>)
    ensures onsets == RawOnsets(p, tW, rand, first)
  {
    onsets := [];
    for f := 0 to p.nFlashes
      invariant |onsets| == f
      invariant forall j :: 0 <= j < f ==> onsets[j] == tW + rand(first + j) * p.twSize
    {
      onsets := onsets + [tW + rand(first + f) * p.twSize];
    }
    assert forall j :: 0 <= j < p.nFlashes ==> onsets[j] == RawOnsets(p, tW, rand, first)[j];
  }

  /** The body of the innermost loop: the random positions and onsets of one trial. */
  method BuildTrial(p: DesignParams, rand: nat -> real, posX: seq<real>, posY: seq<real>,
                    cF: nat, cJ: nat, tW: real, drawn: nat, id: nat) returns (trial: Trial)
    requires cF < |p.cFlash| && cJ < |p.cJump|
    ensures trial == MakeTrial(p, rand, posX, posY, cF, cJ, tW, drawn, id)
  {
    var targetX, newX := JitterGrid(posX, p.randomPosShift, rand, drawn);
    var targetY, newY := JitterGrid(posY, p.randomPosShift, rand, drawn + 2 * |posX|);
    var onsets := DrawOnsets(p, tW, rand, drawn + 2 * |posX| + 2 * |posY|);
    if p.cJump[cJ] != 1.0 {
      newX, newY := targetX, targetY;
    }
    trial := Trial(Sort(onsets), targetX, targetY, newX, newY, p.cFlash[cF], p.cJump[cJ],
                   if p.cFlash[cF] != 0.0 then FlashWhite else FlashGrey, id);
  }

  // ---------------------------------------------------------------------------
  // What the trial list promises
  // ---------------------------------------------------------------------------

  /** Math.random: every draw lies in [0, 1). */
  ghost predicate UnitDraws(rand: nat -> real)
  {
    forall k: nat :: 0.0 <= rand(k) < 1.0
  }

  /** The list holds one trial per repetition, condition pair and window, numbered by position. */
  lemma DesignShape(p: DesignParams, rand: nat -> real)
    requires ValidParams(p)
    ensures |Design(p, rand)| == TrialCount(p)
    ensures forall id :: 0 <= id < |Design(p, rand)| ==> Design(p, rand)[id].trialID == id
  {
    if !NonEmptyDesign(p) {
      assert |p.cFlash| == 0 || |p.cJump| == 0 || WindowCount(p.maxFlashTime, p.twSize) == 0;
    }
  }

  /** Positions of the nTrials repetitions stay below the trial count. */
  lemma PositionInRange(nF: nat, nJ: nat, windows: nat, nTrials: nat, nT: nat, cF: nat, cJ: nat, w: nat)
    requires nT < nTrials && cF < nF && cJ < nJ && w < windows
    ensures Position(nF, nJ, windows, nT, cF, cJ, w) < nTrials * nF * nJ * windows
  {
    var a := nT * nF + cF;
    var b := a * nJ + cJ;
    var n2 := nTrials * nF;
    var n3 := n2 * nJ;
    MulSucc(nT, nF);
    MulMono(nT + 1, nTrials, nF);
    assert a + 1 <= n2;
    MulSucc(a, nJ);
    MulMono(a + 1, n2, nJ);
    assert b + 1 <= n3;
    MulSucc(b, windows);
    MulMono(b + 1, n3, windows);
  }

  /**
   * Every repetition of every flash and jump condition in every window is in
   * the list, at its position, built from its own random numbers.
   */
  lemma DesignCovers(p: DesignParams, rand: nat -> real, nT: nat, cF: nat, cJ: nat, w: nat)
    requires ValidParams(p) && nT < p.nTrials && cF < |p.cFlash| && cJ < |p.cJump|
    requires w < WindowCount(p.maxFlashTime, p.twSize)
    ensures Position(|p.cFlash|, |p.cJump|, WindowCount(p.maxFlashTime, p.twSize), nT, cF, cJ, w) < |Design(p, rand)|
    ensures var id := Position(|p.cFlash|, |p.cJump|, WindowCount(p.maxFlashTime, p.twSize), nT, cF, cJ, w);
            Design(p, rand)[id] == MakeTrial(p, rand, GridX(p), GridY(p), cF, cJ, WindowStart(p, w), FirstDraw(p, id), id)
  {
    var nF, nJ, windows := |p.cFlash|, |p.cJump|, WindowCount(p.maxFlashTime, p.twSize);
    var id := Position(nF, nJ, windows, nT, cF, cJ, w);
    PositionInRange(nF, nJ, windows, p.nTrials, nT, cF, cJ, w);
    DecodePosition(nF, nJ, windows, nT, cF, cJ, w);
    TrialAtDigits(p, rand, id, cF, cJ, w);
  }

  /**
   * A trial carries its conditions: a white flash exactly when the flash
   * condition is set, grey otherwise; the dots jump to separately drawn
   * positions only in the jump condition 1 and stay put otherwise; the
   * flash onsets come in ascending order.
   */
  lemma TrialCarriesConditions(p: DesignParams, rand: nat -> real, posX: seq<real>, posY: seq<real>,
                               cF: nat, cJ: nat, tW: real, base: nat, id: nat)
    requires cF < |p.cFlash| && cJ < |p.cJump|
    ensures var t := MakeTrial(p, rand, posX, posY, cF, cJ, tW, base, id);
            t.trialID == id && t.flashShown == p.cFlash[cF] && t.stimJumps == p.cJump[cJ] &&
            (t.flashColor == FlashWhite <==> t.flashShown != 0.0) &&
            (t.flashColor == FlashGrey <==> t.flashShown == 0.0)
    ensures var t := MakeTrial(p, rand, posX, posY, cF, cJ, tW, base, id);
            |t.targetPosX| == |t.newTargetPosX| == |posX| && |t.targetPosY| == |t.newTargetPosY| == |posY|
    ensures var t := MakeTrial(p, rand, posX, posY, cF, cJ, tW, base, id);
            t.stimJumps != 1.0 ==> t.newTargetPosX == t.targetPosX && t.newTargetPosY == t.targetPosY
    ensures var t := MakeTrial(p, rand, posX, posY, cF, cJ, tW, base, id);
            t.stimJumps == 1.0 ==> t.newTargetPosX == JitteredGrid(posX, p.randomPosShift, rand, base + 1)
    ensures var t := MakeTrial(p, rand, posX, posY, cF, cJ, tW, base, id);
            |t.flashTime| == p.nFlashes && Sorted(t.flashTime)
  {
    SortSortsPermutation(RawOnsets(p, tW, rand, base + 2 * |posX| + 2 * |posY|));
  }

  /** With draws in [0, 1), every flash of a trial falls inside its window [tW, tW + twSize). */
  lemma FlashesInWindow(p: DesignParams, rand: nat -> real, posX: seq<real>, posY: seq<real>,
                        cF: nat, cJ: nat, tW: real, base: nat, id: nat, f: nat)
    requires cF < |p.cFlash| && cJ < |p.cJump| && UnitDraws(rand) && p.twSize > 0.0 && f < p.nFlashes
    ensures var t := MakeTrial(p, rand, posX, posY, cF, cJ, tW, base, id);
            tW <= t.flashTime[f] < tW + p.twSize
  {
    SortedOnsetsInWindow(p, tW, rand, base + 2 * |posX| + 2 * |posY|, f);
  }

  lemma SortedOnsetsInWindow(p: DesignParams, tW: real, rand: nat -> real, first: nat, f: nat)
    requires UnitDraws(rand) && p.twSize > 0.0 && f < p.nFlashes
    ensures tW <= Sort(RawOnsets(p, tW, rand, first))[f] < tW + p.twSize
  {
    var raw := RawOnsets(p, tW, rand, first);
    forall g | 0 <= g < |raw|
      ensures tW <= raw[g] < tW + p.twSize
    {
      var r := rand(first + g);
      assert raw[g] == tW + r * p.twSize;
      RealMulMono(0.0, r, p.twSize);
      assert (1.0 - r) * p.twSize > 0.0;
    }
    SortWithin(raw, tW, tW + p.twSize);
  }

  /** Inserting keeps every element within bounds that hold for all of them. */
  lemma {:induction false} InsertWithin(x: real, xs: seq<real>, lo: real, hi: real)
    requires lo <= x < hi && forall i :: 0 <= i < |xs| ==> lo <= xs[i] < hi
    ensures forall i :: 0 <= i < |xs| + 1 ==> lo <= Insert(x, xs)[i] < hi
  {
    if xs != [] && x > xs[0] {
      InsertWithin(x, xs[1..], lo, hi);
    }
  }

  lemma {:induction false} SortWithin(xs: seq<real>, lo: real, hi: real)
    requires forall i :: 0 <= i < |xs| ==> lo <= xs[i] < hi
    ensures forall i :: 0 <= i < |xs| ==> lo <= Sort(xs)[i] < hi
  {
    if xs != [] {
      SortWithin(xs[1..], lo, hi);
      InsertWithin(xs[0], Sort(xs[1..]), lo, hi);
    }
  }

  /** With draws in [0, 1), each jittered dot stays within randomPosShift of its grid point. */
  lemma JitterWithin(grid: seq<real>, shift: real, rand: nat -> real, first: nat, i: nat)
    requires i < |grid| && shift >= 0.0 && UnitDraws(rand)
    ensures grid[i] - shift <= JitteredGrid(grid, shift, rand, first)[i] <= grid[i] + shift
  {
    var r := rand(first + 2 * i);
    assert -1.0 <= r * 2.0 - 1.0 <= 1.0;
    RealMulMono(-1.0, r * 2.0 - 1.0, shift);
    RealMulMono(r * 2.0 - 1.0, 1.0, shift);
  }
}
