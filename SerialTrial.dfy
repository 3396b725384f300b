/**
 * One trial of the serial manual-inhibition task. Dots are drawn at their
 * positions; the participant touches them in order; the screen flashes at
 * scheduled onsets and the dots may jump; the trial ends when its time is up
 * or every dot has been collected, and the outcome flags are computed.
 * Drawing, timers and event listeners are left to the browser: what remains
 * is the state the plugin keeps and updates on every touch and frame.
 */
module SerialTrial {
  import opened Wrappers

  // ---------------------------------------------------------------------------
  // Coordinate scaling
  // ---------------------------------------------------------------------------

  /** Degrees of visual angle turned into pixels. */
  function Scaled(xs: seq<real>, pixelPerDegree: real): (ys: seq<real>)
    ensures |ys| == |xs| && forall i :: 0 <= i < |xs| ==> ys[i] == xs[i] * pixelPerDegree
  {
    seq(|xs|, i requires 0 <= i < |xs| => xs[i] * pixelPerDegree)
  }

  // ---------------------------------------------------------------------------
  // The dots
  // ---------------------------------------------------------------------------

  /** A dot as the trial holds it: where it is drawn, where it starts, where it jumps to. */
  datatype Dot = Dot(x: real, y: real, xOriginal: real, yOriginal: real, xShift: real, yShift: real,
                     rad: real, color: string, position: nat)

  datatype Point = Point(x: real, y: real)

  /** Dot i of init_circles: its coordinates are offsets from the centre of the window. */
  function CircleAt(xs: seq<real>, xsShifted: seq<real>, ys: seq<real>, ysShifted: seq<real>,
                    width: real, height: real, rad: real, color: string, i: nat): Dot
    requires i < |xs| && i < |xsShifted| && i < |ys| && i < |ysShifted|
  {
    var x := xs[i] + width / 2.0;
    var y := ys[i] + height / 2.0;
    Dot(x, y, x, y, xsShifted[i] + width / 2.0, ysShifted[i] + height / 2.0, rad, color, i)
  }

  method InitCircles(xs: seq<real>, xsShifted: seq<real>, ys: seq<real>, ysShifted: seq<real>,
                     width: real, height: real, rad: real, color: string) returns (circles: seq<Dot>)
    requires |xsShifted| == |ys| == |ysShifted| == |xs|
    ensures |circles| == |xs|
    ensures forall i :: 0 <= i < |xs| ==> circles[i] == CircleAt(xs, xsShifted, ys, ysShifted, width, height, rad, color, i)
  {
    circles := [];
    for i := 0 to |xs|
      invariant |circles| == i
      invariant forall j :: 0 <= j < i ==> circles[j] == CircleAt(xs, xsShifted, ys, ysShifted, width, height, rad, color, j)
    {
      var x := xs[i] + width / 2.0;
      var y := ys[i] + height / 2.0;
      var xShifted := xsShifted[i] + width / 2.0;
      var yShifted := ysShifted[i] + height / 2.0;
      circles := circles + [Dot(x, y, x, y, xShifted, yShifted, rad, color, i)];
    }
  }

  /** Dot i is numbered i and starts at its unshifted place, the centre of the window plus its offset. */
  lemma CirclesStartInPlace(xs: seq<real>, xsShifted: seq<real>, ys: seq<real>, ysShifted: seq<real>,
                            width: real, height: real, rad: real, color: string, i: nat)
    requires i < |xs| && |xsShifted| == |ys| == |ysShifted| == |xs|
    ensures var d := CircleAt(xs, xsShifted, ys, ysShifted, width, height, rad, color, i);
            d.position == i && Moved(d, false) == d &&
            d.x - width / 2.0 == xs[i] && d.y - height / 2.0 == ys[i] &&
            Moved(d, true).x - width / 2.0 == xsShifted[i] && Moved(d, true).y - height / 2.0 == ysShifted[i]
  {
  }

  // ---------------------------------------------------------------------------
  // perform_updates: move every dot, remove the one that is touched
  // ---------------------------------------------------------------------------

  /** A dot moved to its jumped or its original place. */
  function Moved(d: Dot, shift: bool): Dot
  {
    d.(x := if shift then d.xShift else d.xOriginal, y := if shift then d.yShift else d.yOriginal)
  }

  function MovedAll(cs: seq<Dot>, shift: bool): (ms: seq<Dot>)
    ensures |ms| == |cs| && forall k :: 0 <= k < |cs| ==> ms[k] == Moved(cs[k], shift)
  {
    seq(|cs|, k requires 0 <= k < |cs| => Moved(cs[k], shift))
  }

  /**
   * The touch lies strictly less than the accepted distance from the dot on
   * both axes. With no touch waiting the differences are NaN and nothing is hit.
   */
  predicate Hit(selected: Option<Point>, d: Dot, distance: real)
  {
    selected.Some? &&
    selected.value.x - d.x < distance && selected.value.x - d.x > -distance &&
    selected.value.y - d.y < distance && selected.value.y - d.y > -distance
  }

  /** What a call of perform_updates leaves: the dots, the waiting touch, the dots chosen. */
  datatype Update = Update(circles: seq<Dot>, selected: Option<Point>, chosen: seq<nat>)

  /**
   * perform_updates from index i of the dot list on. A touched dot is spliced
   * out and the index still moves on, so the dot after it is not visited.
   */
  function UpdatesFrom(cs: seq<Dot>, i: nat, shift: bool, selected: Option<Point>, distance: real): Update
    decreases |cs| - i
  {
    if i >= |cs| then Update(cs, selected, [])
    else
      var m := Moved(cs[i], shift);
      if Hit(selected, m, distance) then
        var rest := UpdatesFrom(cs[..i] + cs[i + 1..], i + 1, shift, None, distance);
        Update(rest.circles, rest.selected, [m.position] + rest.chosen)
      else
        UpdatesFrom(cs[i := m], i + 1, shift, selected, distance)
  }

  function Updates(cs: seq<Dot>, shift: bool, selected: Option<Point>, distance: real): Update
  {
    UpdatesFrom(cs, 0, shift, selected, distance)
  }

  /** The first dot from index i on that the touch hits once it is moved. */
  function FirstHitFrom(cs: seq<Dot>, i: nat, shift: bool, selected: Option<Point>, distance: real): (h: Option<nat>)
    ensures h.Some? ==> i <= h.value < |cs| && Hit(selected, Moved(cs[h.value], shift), distance)
    ensures h.Some? ==> forall j :: i <= j < h.value ==> !Hit(selected, Moved(cs[j], shift), distance)
    ensures h.None? ==> forall j :: i <= j < |cs| ==> !Hit(selected, Moved(cs[j], shift), distance)
    decreases |cs| - i
  {
    if i >= |cs| then None
    else if Hit(selected, Moved(cs[i], shift), distance) then Some(i)
    else FirstHitFrom(cs, i + 1, shift, selected, distance)
  }

  /** The dots after a removed one: the first is skipped, the rest are moved. */
  function Skipped(cs: seq<Dot>, shift: bool): (ss: seq<Dot>)
    ensures |ss| == |cs|
  {
    if cs == [] then [] else [cs[0]] + MovedAll(cs[1..], shift)
  }

  /** Moving dot i extends the moved stretch by one. */
  lemma MoveStep(cs: seq<Dot>, i: nat, j: nat, shift: bool)
    requires i < j <= |cs|
    ensures var cs' := cs[i := Moved(cs[i], shift)];
            cs'[..i + 1] + MovedAll(cs'[i + 1..j], shift) == cs[..i] + MovedAll(cs[i..j], shift)
  {
    var cs' := cs[i := Moved(cs[i], shift)];
    var left := cs'[..i + 1] + MovedAll(cs'[i + 1..j], shift);
    var right := cs[..i] + MovedAll(cs[i..j], shift);
    assert |left| == |right|;
    forall k | 0 <= k < |left|
      ensures left[k] == right[k]
    {
      if k > i {
        assert left[k] == MovedAll(cs'[i + 1..j], shift)[k - i - 1];
        assert right[k] == MovedAll(cs[i..j], shift)[k - i];
      }
    }
  }

  /** A dot the touch misses is moved and the scan goes on with the next. */
  lemma MissAt(cs: seq<Dot>, i: nat, shift: bool, selected: Option<Point>, distance: real)
    requires i < |cs| && !Hit(selected, Moved(cs[i], shift), distance)
    ensures UpdatesFrom(cs, i, shift, selected, distance) ==
            UpdatesFrom(cs[i := Moved(cs[i], shift)], i + 1, shift, selected, distance)
  {
  }

  /** A run of dots the touch misses is moved, and the scan continues after it. */
  lemma {:induction false} MissesFrom(cs: seq<Dot>, i: nat, h: nat, shift: bool, selected: Option<Point>, distance: real)
    requires i <= h <= |cs|
    requires forall j :: i <= j < h ==> !Hit(selected, Moved(cs[j], shift), distance)
    ensures UpdatesFrom(cs, i, shift, selected, distance) ==
            UpdatesFrom(cs[..i] + MovedAll(cs[i..h], shift) + cs[h..], h, shift, selected, distance)
    decreases h - i
  {
    if i == h {
      assert cs[..i] + MovedAll(cs[i..h], shift) + cs[h..] == cs;
    } else {
      var cs' := cs[i := Moved(cs[i], shift)];
      MissAt(cs, i, shift, selected, distance);
      forall j | i + 1 <= j < h
        ensures !Hit(selected, Moved(cs'[j], shift), distance)
      {
        assert cs'[j] == cs[j];
      }
      MissesFrom(cs', i + 1, h, shift, selected, distance);
      MoveStep(cs, i, h, shift);
      assert cs'[h..] == cs[h..];
    }
  }

  /** Without a hit every remaining dot is moved and the touch keeps waiting. */
  lemma UpdatesWithoutHit(cs: seq<Dot>, i: nat, shift: bool, selected: Option<Point>, distance: real)
    requires i <= |cs|
    requires forall j :: i <= j < |cs| ==> !Hit(selected, Moved(cs[j], shift), distance)
    ensures UpdatesFrom(cs, i, shift, selected, distance) == Update(cs[..i] + MovedAll(cs[i..], shift), selected, [])
  {
    MissesFrom(cs, i, |cs|, shift, selected, distance);
    assert cs[|cs|..] == [] && cs[i..|cs|] == cs[i..];
  }

  /** A hit at index h removes that dot, records its position and clears the touch before the scan goes on. */
  lemma HitStep(cs: seq<Dot>, h: nat, shift: bool, selected: Option<Point>, distance: real)
    requires h < |cs| && Hit(selected, Moved(cs[h], shift), distance)
    ensures var rest := UpdatesFrom(cs[..h] + cs[h + 1..], h + 1, shift, None, distance);
            UpdatesFrom(cs, h, shift, selected, distance) == Update(rest.circles, rest.selected, [cs[h].position] + rest.chosen)
  {
  }

  /** With dot h spliced out, the dots from h on are the skipped tail. */
  lemma SkipSplice(cs: seq<Dot>, h: nat, shift: bool)
    requires h + 1 < |cs|
    ensures var rest := cs[..h] + cs[h + 1..];
            rest[..h + 1] + MovedAll(rest[h + 1..], shift) == cs[..h] + Skipped(cs[h + 1..], shift)
  {
    var rest := cs[..h] + cs[h + 1..];
    assert rest[..h + 1] == cs[..h] + [cs[h + 1]];
    assert rest[h + 1..] == cs[h + 2..];
    assert cs[h + 1..][1..] == cs[h + 2..];
  }

  /** A hit at index h: that dot goes, the touch is cleared, and the dot after it is skipped. */
  lemma HitAt(cs: seq<Dot>, h: nat, shift: bool, selected: Option<Point>, distance: real)
    requires h < |cs| && Hit(selected, Moved(cs[h], shift), distance)
    ensures UpdatesFrom(cs, h, shift, selected, distance) ==
            Update(cs[..h] + Skipped(cs[h + 1..], shift), None, [cs[h].position])
  {
    var rest := cs[..h] + cs[h + 1..];
    HitStep(cs, h, shift, selected, distance);
    if h + 1 < |cs| {
      UpdatesWithoutHit(rest, h + 1, shift, None, distance);
      SkipSplice(cs, h, shift);
    } else {
      assert rest == cs[..h] && cs[h + 1..] == [];
    }
  }

  /**
   * The first hit at index h removes that dot, records its position and
   * clears the touch; the dot after it keeps its old place for this frame.
   */
  lemma UpdatesWithHit(cs: seq<Dot>, i: nat, h: nat, shift: bool, selected: Option<Point>, distance: real)
    requires i <= h < |cs| && Hit(selected, Moved(cs[h], shift), distance)
    requires forall j :: i <= j < h ==> !Hit(selected, Moved(cs[j], shift), distance)
    ensures UpdatesFrom(cs, i, shift, selected, distance) ==
            Update(cs[..i] + MovedAll(cs[i..h], shift) + Skipped(cs[h + 1..], shift), None, [cs[h].position])
  {
    MissesFrom(cs, i, h, shift, selected, distance);
    var d := cs[..i] + MovedAll(cs[i..h], shift) + cs[h..];
    assert d[h] == cs[h];
    HitAt(d, h, shift, selected, distance);
    assert d[..h] == cs[..i] + MovedAll(cs[i..h], shift);
    assert d[h + 1..] == cs[h + 1..];
  }

  /**
   * perform_updates as a whole: with no dot hit every dot moves to its
   * original or jumped place and the touch keeps waiting; otherwise the first
   * dot hit is removed and its position chosen, the touch is cleared, and the
   * dot right after it is not moved in this frame.
   */
  lemma UpdatesOutcome(cs: seq<Dot>, shift: bool, selected: Option<Point>, distance: real)
    ensures FirstHitFrom(cs, 0, shift, selected, distance).None? ==>
              Updates(cs, shift, selected, distance) == Update(MovedAll(cs, shift), selected, [])
    ensures FirstHitFrom(cs, 0, shift, selected, distance).Some? ==>
              var h := FirstHitFrom(cs, 0, shift, selected, distance).value;
              Updates(cs, shift, selected, distance) ==
                Update(MovedAll(cs[..h], shift) + Skipped(cs[h + 1..], shift), None, [cs[h].position])
  {
    match FirstHitFrom(cs, 0, shift, selected, distance)
    case None =>
      UpdatesWithoutHit(cs, 0, shift, selected, distance);
      var all := MovedAll(cs, shift);
      assert cs[0..] == cs;
      assert cs[..0] + all == all;
    case Some(h) =>
      UpdatesWithHit(cs, 0, h, shift, selected, distance);
      var front := MovedAll(cs[..h], shift);
      assert cs[0..h] == cs[..h];
      assert cs[..0] + front == front;
  }

  /** The dot list and the positions it holds, in order. */
  function Positions(cs: seq<Dot>): (ps: seq<nat>)
    ensures |ps| == |cs| && forall k :: 0 <= k < |cs| ==> ps[k] == cs[k].position
  {
    seq(|cs|, k requires 0 <= k < |cs| => cs[k].position)
  }

  /**
   * At most one dot is removed per call, and only with a touch waiting, which
   * it then consumes; the dot removed is the one whose position is chosen, so
   * the positions on screen and the positions chosen together are those there
   * were before.
   */
  lemma AtMostOneRemoval(cs: seq<Dot>, shift: bool, selected: Option<Point>, distance: real)
    ensures var u := Updates(cs, shift, selected, distance);
            |u.chosen| <= 1 && |u.circles| + |u.chosen| == |cs|
    ensures var u := Updates(cs, shift, selected, distance);
            u.chosen == [] ==> u.selected == selected
    ensures var u := Updates(cs, shift, selected, distance);
            |u.chosen| == 1 ==> selected.Some? && u.selected.None?
    ensures var u := Updates(cs, shift, selected, distance);
            multiset(Positions(u.circles)) + multiset(u.chosen) == multiset(Positions(cs))
  {
    UpdatesOutcome(cs, shift, selected, distance);
    match FirstHitFrom(cs, 0, shift, selected, distance)
    case None =>
      PositionsMoved(cs, shift);
    case Some(h) =>
      RemovalPositions(cs, h, shift);
  }

  /** Dots and choices keep the positions below any bound the dots had before. */
  lemma RemovalKeepsBound(cs: seq<Dot>, shift: bool, selected: Option<Point>, distance: real, n: nat)
    requires forall k :: 0 <= k < |cs| ==> cs[k].position < n
    ensures var u := Updates(cs, shift, selected, distance);
            (forall k :: 0 <= k < |u.circles| ==> u.circles[k].position < n) &&
            (forall k :: 0 <= k < |u.chosen| ==> u.chosen[k] < n)
  {
    AtMostOneRemoval(cs, shift, selected, distance);
    var u := Updates(cs, shift, selected, distance);
    forall k | 0 <= k < |u.circles|
      ensures u.circles[k].position < n
    {
      var x := Positions(u.circles)[k];
      assert x in multiset(Positions(u.circles));
      assert x in multiset(Positions(cs));
      var j :| 0 <= j < |cs| && Positions(cs)[j] == x;
    }
    forall k | 0 <= k < |u.chosen|
      ensures u.chosen[k] < n
    {
      var x := u.chosen[k];
      assert x in multiset(u.chosen);
      assert x in multiset(Positions(cs));
      var j :| 0 <= j < |cs| && Positions(cs)[j] == x;
    }
  }

  lemma PositionsMoved(cs: seq<Dot>, shift: bool)
    ensures Positions(MovedAll(cs, shift)) == Positions(cs)
  {
  }

  lemma PositionsConcat(a: seq<Dot>, b: seq<Dot>)
    ensures Positions(a + b) == Positions(a) + Positions(b)
  {
  }

  lemma PositionsSkipped(cs: seq<Dot>, shift: bool)
    ensures Positions(Skipped(cs, shift)) == Positions(cs)
  {
    if cs != [] {
      PositionsConcat([cs[0]], MovedAll(cs[1..], shift));
      PositionsMoved(cs[1..], shift);
      PositionsConcat([cs[0]], cs[1..]);
      assert cs == [cs[0]] + cs[1..];
    }
  }

  /** Removing dot h leaves the positions before and after it, in order. */
  lemma RemovalPositions(cs: seq<Dot>, h: nat, shift: bool)
    requires h < |cs|
    ensures Positions(MovedAll(cs[..h], shift) + Skipped(cs[h + 1..], shift)) ==
            Positions(cs[..h]) + Positions(cs[h + 1..])
    ensures multiset(Positions(cs[..h]) + Positions(cs[h + 1..])) + multiset{cs[h].position} == multiset(Positions(cs))
  {
    PositionsConcat(MovedAll(cs[..h], shift), Skipped(cs[h + 1..], shift));
    PositionsMoved(cs[..h], shift);
    PositionsSkipped(cs[h + 1..], shift);
    assert cs == cs[..h] + [cs[h]] + cs[h + 1..];
    PositionsConcat(cs[..h] + [cs[h]], cs[h + 1..]);
    PositionsConcat(cs[..h], [cs[h]]);
  }

  // ---------------------------------------------------------------------------
  // get_current_position_and_color: the flash schedule
  // ---------------------------------------------------------------------------

  /**
   * The flash state: the onset being waited for, the onsets queued after it,
   * when the current flash came on, and the recorded on and off times.
   */
  datatype FlashState = FlashState(next: Option<real>, queue: seq<real>, flashOn: Option<real>,
                                   onTimes: seq<real>, offTimes: seq<real>)

  /** JavaScript's `t > onset`: false when either side is undefined or NaN. */
  predicate Later(t: Option<real>, onset: Option<real>)
  {
    t.Some? && onset.Some? && t.value > onset.value
  }

  /** No flash is on, or the one that is on has lasted less than the flash duration. */
  predicate BeforeFlashOff(s: FlashState, t: Option<real>, duration: real)
  {
    s.flashOn.None? || (t.Some? && t.value < s.flashOn.value + duration)
  }

  /** The flash colour is shown. */
  predicate Lit(s: FlashState, t: Option<real>, duration: real)
  {
    Later(t, s.next) && BeforeFlashOff(s, t, duration)
  }

  /** Array.prototype.shift: the head (undefined for an empty queue) and what remains. */
  function Head(q: seq<real>): Option<real>
  {
    if q == [] then None else Some(q[0])
  }

  function Tail(q: seq<real>): seq<real>
  {
    if q == [] then [] else q[1..]
  }

  /**
   * One frame of the flash schedule at elapsed time `t` (undefined before the
   * first touch). A flash starts once the onset has passed; once it has lasted
   * the flash duration it ends and the next onset comes from the queue.
   */
  function FlashStep(s: FlashState, t: Option<real>, duration: real): FlashState
    requires t.None? ==> s.flashOn.None?
  {
    var started :=
      if Later(t, s.next) && s.flashOn.None? then s.(flashOn := t, onTimes := s.onTimes + [t.value]) else s;
    if BeforeFlashOff(s, t, duration) then started
    else started.(offTimes := started.offTimes + [t.value], next := Head(s.queue), queue := Tail(s.queue), flashOn := None)
  }

  /** The onsets still to come: the one waited for, then the queue. */
  function Pending(s: FlashState): seq<real>
  {
    (if s.next.Some? then [s.next.value] else []) + s.queue
  }

  /**
   * What every frame keeps: the queue is drained only through the onset
   * waited for; every onset is either still pending or its flash has ended;
   * there is one on-time per flash started and one off-time per flash ended;
   * a flash is on only while its onset is the one waited for.
   */
  predicate FlashConsistent(s: FlashState, scheduled: nat)
  {
    (s.next.None? ==> s.queue == []) &&
    |s.offTimes| + |Pending(s)| == scheduled &&
    |s.onTimes| == |s.offTimes| + (if s.flashOn.Some? then 1 else 0) &&
    (s.flashOn.Some? ==> s.next.Some?)
  }

  /** The state the plugin starts from: the first onset taken from the schedule. */
  function FlashStart(changeOnset: seq<real>): (s: FlashState)
    ensures Pending(s) == changeOnset && FlashConsistent(s, |changeOnset|)
  {
    FlashState(Head(changeOnset), Tail(changeOnset), None, [], [])
  }

  /**
   * A frame keeps the schedule consistent. A flash that ends consumes the
   * onset it was waiting for; nothing else is consumed.
   */
  lemma FlashStepConsistent(s: FlashState, t: Option<real>, duration: real, scheduled: nat)
    requires t.None? ==> s.flashOn.None?
    requires FlashConsistent(s, scheduled)
    ensures FlashConsistent(FlashStep(s, t, duration), scheduled)
    ensures BeforeFlashOff(s, t, duration) ==> Pending(FlashStep(s, t, duration)) == Pending(s)
    ensures !BeforeFlashOff(s, t, duration) ==> Pending(s) != [] && Pending(FlashStep(s, t, duration)) == Pending(s)[1..]
  {
    if !BeforeFlashOff(s, t, duration) {
      var s' := FlashStep(s, t, duration);
      assert Pending(s) == [s.next.value] + s.queue;
      if s.queue != [] {
        assert Pending(s') == [s.queue[0]] + s.queue[1..];
      }
    }
  }

  /**
   * A frame starts a flash, adding exactly one on-time (the current time),
   * when the onset has passed and no flash is on; otherwise the on-times stay.
   */
  lemma FlashStarts(s: FlashState, t: Option<real>, duration: real)
    requires t.None? ==> s.flashOn.None?
    ensures Later(t, s.next) && s.flashOn.None? ==> FlashStep(s, t, duration).onTimes == s.onTimes + [t.value]
    ensures !(Later(t, s.next) && s.flashOn.None?) ==> FlashStep(s, t, duration).onTimes == s.onTimes
  {
  }

  /** Once no onset is waited for, no flash is shown or started again. */
  lemma NoFlashAfterSchedule(s: FlashState, t: Option<real>, duration: real, scheduled: nat)
    requires FlashConsistent(s, scheduled) && s.next.None? && (t.None? ==> s.flashOn.None?)
    ensures !Lit(s, t, duration)
    ensures FlashStep(s, t, duration) == s
  {
  }

  /** Before the first touch the elapsed time is undefined: the frame changes nothing and shows no flash. */
  lemma NothingBeforeTouch(s: FlashState, duration: real)
    requires s.flashOn.None?
    ensures !Lit(s, None, duration) && FlashStep(s, None, duration) == s
  {
  }

  /** No more flashes start, and none end, than were scheduled. */
  lemma FlashesBounded(s: FlashState, scheduled: nat)
    requires FlashConsistent(s, scheduled)
    ensures |s.onTimes| <= scheduled && |s.offTimes| <= scheduled
  {
  }

  // ---------------------------------------------------------------------------
  // end_trial: the outcome flags
  // ---------------------------------------------------------------------------

  /** The differences between consecutive choices. */
  function Differences(xs: seq<nat>): (ds: seq<int>)
    ensures |ds| == if |xs| == 0 then 0 else |xs| - 1
  {
    if |xs| <= 1 then [] else seq(|xs| - 1, i requires 0 <= i < |xs| - 1 => xs[i + 1] as int - xs[i] as int)
  }

  method ConsecutiveDifferences(xs: seq<nat>) returns (newA: seq<int>)
    ensures newA == Differences(xs)
  {
    newA := [];
    var i := 1;
    while i < |xs|
      invariant 1 <= i <= if |xs| == 0 then 1 else |xs|
      invariant |newA| == i - 1
      invariant forall j :: 0 <= j < i - 1 ==> newA[j] == xs[j + 1] as int - xs[j] as int
    {
      newA := newA + [xs[i] as int - xs[i - 1] as int];
      i := i + 1;
    }
  }

  /** `newA.every(val => val === 1)`. */
  predicate InOrder(xs: seq<nat>)
  {
    forall k :: 0 <= k < |Differences(xs)| ==> Differences(xs)[k] == 1
  }

  datatype Outcome = Outcome(lateResponse: bool, orderResponse: bool, tooManyTouches: bool,
                             screenInLandscape: bool, success: bool)

  function TrialOutcome(choiceOrder: seq<nat>, nTouches: nat, nTargets: nat, innerWidth: real, innerHeight: real): Outcome
  {
    Outcome(|choiceOrder| != nTargets, InOrder(choiceOrder), nTouches > nTargets, innerHeight < innerWidth,
            |choiceOrder| == nTargets && InOrder(choiceOrder) && nTouches == nTargets && innerHeight < innerWidth)
  }

  /** The choices are in order exactly when they are a run of consecutive positions. */
  lemma InOrderIsRun(xs: seq<nat>)
    ensures InOrder(xs) <==> forall k :: 0 <= k < |xs| ==> xs[k] == xs[0] + k
  {
    if InOrder(xs) {
      RunFromOrder(xs, |xs|);
    }
    if forall k :: 0 <= k < |xs| ==> xs[k] == xs[0] + k {
      forall k | 0 <= k < |Differences(xs)|
        ensures Differences(xs)[k] == 1
      {
        assert xs[k + 1] == xs[0] + k + 1 && xs[k] == xs[0] + k;
      }
    }
  }

  lemma {:induction false} RunFromOrder(xs: seq<nat>, n: nat)
    requires InOrder(xs) && n <= |xs|
    ensures forall k :: 0 <= k < n ==> xs[k] == xs[0] + k
  {
    if n > 1 {
      RunFromOrder(xs, n - 1);
      assert Differences(xs)[n - 2] == xs[n - 1] - xs[n - 2];
    }
  }

  /**
   * Since a choice needs a touch, the success flag is the conjunction of the
   * other flags: every dot collected, in order, never touched too often, on a
   * landscape screen.
   */
  lemma SuccessIsFlags(choiceOrder: seq<nat>, nTouches: nat, nTargets: nat, innerWidth: real, innerHeight: real)
    requires |choiceOrder| <= nTouches
    ensures var o := TrialOutcome(choiceOrder, nTouches, nTargets, innerWidth, innerHeight);
            o.success <==> !o.lateResponse && o.orderResponse && !o.tooManyTouches && o.screenInLandscape
  {
  }

  /** A successful trial collected the dots left to right: the choices are 0, 1, ..., nTargets - 1. */
  lemma SuccessIsLeftToRight(choiceOrder: seq<nat>, nTouches: nat, nTargets: nat, innerWidth: real, innerHeight: real)
    requires forall k :: 0 <= k < |choiceOrder| ==> choiceOrder[k] < nTargets
    requires TrialOutcome(choiceOrder, nTouches, nTargets, innerWidth, innerHeight).success
    ensures forall k :: 0 <= k < |choiceOrder| ==> choiceOrder[k] == k
  {
    InOrderIsRun(choiceOrder);
    if |choiceOrder| > 0 {
      assert choiceOrder[|choiceOrder| - 1] == choiceOrder[0] + |choiceOrder| - 1;
    }
  }

  /** The end test of animate: time is up (never before the first touch) or every dot is chosen. */
  predicate TrialOver(elapsed: Option<real>, trialDuration: real, nChosen: nat, nTargets: nat)
  {
    (elapsed.Some? && elapsed.value >= trialDuration) || nChosen == nTargets
  }

  // ---------------------------------------------------------------------------
  // The trial's state
  // ---------------------------------------------------------------------------

  /** The trial's parameters: positions and sizes in degrees, times in milliseconds. */
  datatype TrialParams = TrialParams(
    targetPosX: seq<real>, targetPosY: seq<real>, shiftedTargetPosX: seq<real>, shiftedTargetPosY: seq<real>,
    circleRadius: real, acceptedTouchDistance: real, pixelPerDegree: real, circleColor: string,
    changeOnset: seq<real>, flashDuration: real, trialDuration: real,
    flashColor: string, backgroundColor: string)

  class ManualInhibitionTrial {
    const targetPosX: seq<real>
    const targetPosY: seq<real>
    const shiftedTargetPosX: seq<real>
    const shiftedTargetPosY: seq<real>
    const circleRadius: real
    const acceptedTouchDistance: real
    const scheduled: seq<real>
    const firstChangeOnset: Option<real>
    const flashDuration: real
    const trialDuration: real
    const flashColor: string
    const backgroundColor: string
    const nTargets: nat
    const innerWidth: real
    const innerHeight: real

    var startTime: Option<real>
    var endTime: Option<real>
    var selected: Option<Point>
    var touchX: seq<real>
    var touchY: seq<real>
    var touchOnTime: seq<real>
    var touchOffTime: seq<real>
    var choiceOrder: seq<nat>
    var circles: seq<Dot>
    var rectColor: string
    var nextChangeOnset: Option<real>
    var changeOnset: seq<real>
    var flashOnTime: Option<real>
    var flashOnTimes: seq<real>
    var flashOffTimes: seq<real>
    var animationTimestamps: seq<real>
    var outcome: Option<Outcome>

    /** The flash schedule's part of the state. */
    function Flash(): FlashState
      reads this`nextChangeOnset, this`changeOnset, this`flashOnTime, this`flashOnTimes, this`flashOffTimes
    {
      FlashState(nextChangeOnset, changeOnset, flashOnTime, flashOnTimes, flashOffTimes)
    }

    /** One x, y and time per touch; nothing is touched or flashed before the first touch. */
    predicate TouchesRecorded()
      reads this`touchX, this`touchY, this`touchOnTime, this`startTime, this`selected, this`flashOnTime
    {
      |touchY| == |touchX| && |touchOnTime| == |touchX| &&
      (startTime.None? ==> selected.None? && touchX == [] && flashOnTime.None?)
    }

    /** Every choice used up a touch, and every dot is either on screen or chosen. */
    predicate ChoicesCounted()
      reads this`choiceOrder, this`selected, this`touchX, this`circles
    {
      |choiceOrder| + (if selected.Some? then 1 else 0) <= |touchX| &&
      |choiceOrder| + |circles| == nTargets &&
      (forall k :: 0 <= k < |circles| ==> circles[k].position < nTargets) &&
      (forall k :: 0 <= k < |choiceOrder| ==> choiceOrder[k] < nTargets)
    }

    predicate FlashScheduled()
      reads this`nextChangeOnset, this`changeOnset, this`flashOnTime, this`flashOnTimes, this`flashOffTimes
    {
      FlashConsistent(Flash(), |scheduled|)
    }

    /** What holds between events. */
    predicate Valid()
      reads this`touchX, this`touchY, this`touchOnTime, this`startTime, this`selected, this`flashOnTime
      reads this`choiceOrder, this`circles
      reads this`nextChangeOnset, this`changeOnset, this`flashOnTimes, this`flashOffTimes
    {
      TouchesRecorded() && ChoicesCounted() && FlashScheduled()
    }

    /** The plugin's set-up: scaling to pixels, the dots, and the first onset taken from the schedule. */
    constructor (params: TrialParams, innerWidth: real, innerHeight: real)
      requires |params.targetPosY| == |params.shiftedTargetPosX| == |params.shiftedTargetPosY| == |params.targetPosX|
      ensures Valid() && outcome.None? && startTime.None?
      ensures targetPosX == Scaled(params.targetPosX, params.pixelPerDegree)
      ensures targetPosY == Scaled(params.targetPosY, params.pixelPerDegree)
      ensures shiftedTargetPosX == Scaled(params.shiftedTargetPosX, params.pixelPerDegree)
      ensures shiftedTargetPosY == Scaled(params.shiftedTargetPosY, params.pixelPerDegree)
      ensures circleRadius == params.circleRadius * params.pixelPerDegree
      ensures acceptedTouchDistance == params.acceptedTouchDistance * params.pixelPerDegree
      ensures nTargets == |params.targetPosX| && |circles| == nTargets
      ensures forall i :: 0 <= i < nTargets ==>
                circles[i] == CircleAt(targetPosX, shiftedTargetPosX, targetPosY, shiftedTargetPosY,
                                       innerWidth, innerHeight, circleRadius, params.circleColor, i)
      ensures Flash() == FlashStart(params.changeOnset) && firstChangeOnset == Head(params.changeOnset)
      ensures rectColor == params.backgroundColor
    {
      var xs := Scaled(params.targetPosX, params.pixelPerDegree);
      var ys := Scaled(params.targetPosY, params.pixelPerDegree);
      var xsShifted := Scaled(params.shiftedTargetPosX, params.pixelPerDegree);
      var ysShifted := Scaled(params.shiftedTargetPosY, params.pixelPerDegree);
      var rad := params.circleRadius * params.pixelPerDegree;
      targetPosX, targetPosY, shiftedTargetPosX, shiftedTargetPosY := xs, ys, xsShifted, ysShifted;
      circleRadius := rad;
      acceptedTouchDistance := params.acceptedTouchDistance * params.pixelPerDegree;
      scheduled := params.changeOnset;
      nextChangeOnset := Head(params.changeOnset);
      changeOnset := Tail(params.changeOnset);
      firstChangeOnset := Head(params.changeOnset);
      flashDuration := params.flashDuration;
      trialDuration := params.trialDuration;
      flashColor := params.flashColor;
      backgroundColor := params.backgroundColor;
      startTime, endTime, flashOnTime := None, None, None;
      flashOnTimes, flashOffTimes, animationTimestamps := [], [], [];
      selected := None;
      touchX, touchY, touchOnTime, touchOffTime, choiceOrder := [], [], [], [], [];
      nTargets := |xs|;
      this.innerWidth := innerWidth;
      this.innerHeight := innerHeight;
      var dots := InitCircles(xs, xsShifted, ys, ysShifted, innerWidth, innerHeight, rad, params.circleColor);
      circles := dots;
      rectColor := params.backgroundColor;
      outcome := None;
    }

    /**
     * handle_interaction: the first touch starts the clock; every touch is
     * recorded and waits to be checked against the dots.
     */
    method HandleInteraction(timeStamp: real, x: real, y: real)
      requires Valid() && outcome.None?
      modifies this`startTime, this`selected, this`touchX, this`touchY, this`touchOnTime
      ensures Valid()
      ensures startTime == if old(startTime).None? then Some(timeStamp) else old(startTime)
      ensures selected == Some(Point(x, y))
      ensures touchX == old(touchX) + [x] && touchY == old(touchY) + [y] && touchOnTime == old(touchOnTime) + [timeStamp]
    {
      if startTime.None? {
        startTime := Some(timeStamp);
      }
      selected := Some(Point(x, y));
      touchX := touchX + [x];
      touchY := touchY + [y];
      touchOnTime := touchOnTime + [timeStamp];
    }

    /** handle_release: the time the finger left the screen. */
    method HandleRelease(timeStamp: real)
      requires outcome.None?
      modifies this`touchOffTime
      ensures touchOffTime == old(touchOffTime) + [timeStamp]
    {
      touchOffTime := touchOffTime + [timeStamp];
    }

    /**
     * get_current_position_and_color: whether the dots have jumped (the first
     * onset has passed), the colour of the background, and one frame of the
     * flash schedule.
     */
    method GetCurrentPositionAndColor(t: Option<real>) returns (afterFirstChange: bool, color: string)
      requires t.None? ==> flashOnTime.None?
      modifies this`nextChangeOnset, this`changeOnset, this`flashOnTime, this`flashOnTimes, this`flashOffTimes
      ensures afterFirstChange == Later(t, firstChangeOnset)
      ensures color == if Lit(old(Flash()), t, flashDuration) then flashColor else backgroundColor
      ensures Flash() == FlashStep(old(Flash()), t, flashDuration)
    {
      afterFirstChange := t.Some? && firstChangeOnset.Some? && t.value > firstChangeOnset.value;
      var afterNextChange := t.Some? && nextChangeOnset.Some? && t.value > nextChangeOnset.value;
      var beforeFlashOff := flashOnTime.None? || (t.Some? && t.value < flashOnTime.value + flashDuration);
      color := if afterNextChange && beforeFlashOff then flashColor else backgroundColor;
      if afterNextChange && flashOnTime.None? {
        flashOnTime := t;
        flashOnTimes := flashOnTimes + [t.value];
      }
      if !beforeFlashOff {
        flashOffTimes := flashOffTimes + [t.value];
        nextChangeOnset := Head(changeOnset);
        changeOnset := Tail(changeOnset);
        flashOnTime := None;
      }
    }

    /**
     * perform_updates: moves each dot to its original or jumped place and
     * removes the first dot the waiting touch hits, recording its position.
     */
    method PerformUpdates(shift: bool, color: string)
      modifies this`circles, this`choiceOrder, this`selected, this`rectColor
      ensures var u := Updates(old(circles), shift, old(selected), acceptedTouchDistance);
              circles == u.circles && selected == u.selected && choiceOrder == old(choiceOrder) + u.chosen
      ensures rectColor == color
    {
      ghost var target := Updates(circles, shift, selected, acceptedTouchDistance);
      var i := 0;
      while i < |circles|
        invariant var u := UpdatesFrom(circles, i, shift, selected, acceptedTouchDistance);
                  u.circles == target.circles && u.selected == target.selected &&
                  choiceOrder + u.chosen == old(choiceOrder) + target.chosen
        decreases |circles| - i
      {
        var x := if shift then circles[i].xShift else circles[i].xOriginal;
        var y := if shift then circles[i].yShift else circles[i].yOriginal;
        circles := circles[i := circles[i].(x := x, y := y)];
        if selected.Some? &&
           selected.value.x - x < acceptedTouchDistance && selected.value.x - x > -acceptedTouchDistance &&
           selected.value.y - y < acceptedTouchDistance && selected.value.y - y > -acceptedTouchDistance {
          choiceOrder := choiceOrder + [circles[i].position];
          circles := circles[..i] + circles[i + 1..];
          selected := None;
        }
        i := i + 1;
      }
      rectColor := color;
    }

    /** end_trial: the outcome flags of the trial. */
    method EndTrial()
      modifies this`outcome
      ensures outcome == Some(TrialOutcome(choiceOrder, |touchX|, nTargets, innerWidth, innerHeight))
    {
      var newA := ConsecutiveDifferences(choiceOrder);
      var orderResponse := forall k :: 0 <= k < |newA| ==> newA[k] == 1;
      var landscape := innerHeight < innerWidth;
      outcome := Some(Outcome(|choiceOrder| != nTargets, orderResponse, |touchX| > nTargets, landscape,
                              |choiceOrder| == nTargets && orderResponse && |touchX| == nTargets && landscape));
    }

    /** The flash half of a frame, with the invariants it keeps. */
    method FlashFrame(t: Option<real>) returns (afterFirstChange: bool, color: string)
      requires TouchesRecorded() && FlashScheduled() && (t.None? <==> startTime.None?)
      modifies this`nextChangeOnset, this`changeOnset, this`flashOnTime, this`flashOnTimes, this`flashOffTimes
      ensures TouchesRecorded() && FlashScheduled()
      ensures afterFirstChange == Later(t, firstChangeOnset)
      ensures Flash() == FlashStep(old(Flash()), t, flashDuration)
    {
      ghost var s0 := Flash();
      afterFirstChange, color := GetCurrentPositionAndColor(t);
      FlashStepConsistent(s0, t, flashDuration, |scheduled|);
      if t.None? {
        NothingBeforeTouch(s0, flashDuration);
      }
    }

    /** The dots' half of a frame, with the invariants it keeps. */
    method UpdateFrame(shift: bool, color: string)
      requires ChoicesCounted()
      modifies this`circles, this`choiceOrder, this`selected, this`rectColor
      ensures ChoicesCounted()
      ensures var u := Updates(old(circles), shift, old(selected), acceptedTouchDistance);
              circles == u.circles && selected == u.selected && choiceOrder == old(choiceOrder) + u.chosen
    {
      ghost var cs0, sel0 := circles, selected;
      PerformUpdates(shift, color);
      AtMostOneRemoval(cs0, shift, sel0, acceptedTouchDistance);
      RemovalKeepsBound(cs0, shift, sel0, acceptedTouchDistance, nTargets);
    }

    /**
     * One frame at elapsed time `t`, undefined exactly before the first
     * touch: the flash schedule advances, then the dots move and the waiting
     * touch is checked against them.
     */
    method Step(t: Option<real>)
      requires Valid() && (t.None? <==> startTime.None?)
      modifies this`nextChangeOnset, this`changeOnset, this`flashOnTime, this`flashOnTimes, this`flashOffTimes
      modifies this`circles, this`choiceOrder, this`selected, this`rectColor
      ensures Valid()
      ensures Flash() == FlashStep(old(Flash()), t, flashDuration)
      ensures var u := Updates(old(circles), Later(t, firstChangeOnset), old(selected), acceptedTouchDistance);
              circles == u.circles && selected == u.selected && choiceOrder == old(choiceOrder) + u.chosen
      ensures t.None? ==> choiceOrder == []
    {
      var afterFirstChange, color := FlashFrame(t);
      UpdateFrame(afterFirstChange, color);
    }

    /** `timestamp - start_time`: undefined (NaN) before the first touch. */
    function Elapsed(timestamp: real): Option<real>
      reads this`startTime
    {
      if startTime.Some? then Some(timestamp - startTime.value) else None
    }

    /**
     * The end of a frame: its timestamp is recorded, then the trial ends if
     * time is up or every dot is chosen.
     */
    method Finish(elapsed: Option<real>, timestamp: real)
      requires Valid()
      modifies this`animationTimestamps, this`endTime, this`outcome
      ensures Valid()
      ensures animationTimestamps == old(animationTimestamps) + [timestamp]
      ensures old(outcome).None? ==> (outcome.Some? <==> TrialOver(elapsed, trialDuration, |choiceOrder|, nTargets))
      ensures outcome != old(outcome) ==>
                endTime == Some(timestamp) && outcome == Some(TrialOutcome(choiceOrder, |touchX|, nTargets, innerWidth, innerHeight))
    {
      animationTimestamps := animationTimestamps + [timestamp];
      if (elapsed.Some? && elapsed.value >= trialDuration) || |choiceOrder| == nTargets {
        endTime := Some(timestamp);
        EndTrial();
      }
    }

    /**
     * animate: one frame. The trial ends when its time is up or every dot is
     * chosen. Before the first touch the elapsed time is undefined, so the
     * trial then ends at once only when it has no dots.
     */
    method Animate(timestamp: real)
      requires Valid() && outcome.None?
      modifies this`nextChangeOnset, this`changeOnset, this`flashOnTime, this`flashOnTimes, this`flashOffTimes
      modifies this`circles, this`choiceOrder, this`selected, this`rectColor
      modifies this`animationTimestamps, this`endTime, this`outcome
      ensures Valid()
      ensures Flash() == FlashStep(old(Flash()), Elapsed(timestamp), flashDuration)
      ensures var u := Updates(old(circles), Later(Elapsed(timestamp), firstChangeOnset), old(selected), acceptedTouchDistance);
              circles == u.circles && selected == u.selected && choiceOrder == old(choiceOrder) + u.chosen
      ensures outcome.Some? <==> TrialOver(Elapsed(timestamp), trialDuration, |choiceOrder|, nTargets)
      ensures outcome.Some? ==>
                endTime == Some(timestamp) && outcome == Some(TrialOutcome(choiceOrder, |touchX|, nTargets, innerWidth, innerHeight))
      ensures animationTimestamps == old(animationTimestamps) + [timestamp]
      ensures startTime.None? ==> (outcome.Some? <==> nTargets == 0)
    {
      var elapsed := Elapsed(timestamp);
      Step(elapsed);
      Finish(elapsed, timestamp);
    }
  }
}
