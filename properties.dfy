/** Properties of the swipe recogniser that relate several steps or
    characterise its predicates independently of how they are written. */
module GestureProperties {
  import opened Geometry
  import opened Gesture

  // ---------------------------------------------------------------------
  // Progress report

  /** A larger ratio never moves the bubble less far: the translation is
      non-increasing in the ratio. */
  lemma TranslationMonotone(r1: real, r2: real, reach: real, t: Threshold, id: int, top: int)
    requires r1 <= r2
    ensures Paint(r2, reach, t, id, top).translation <= Paint(r1, reach, t, id, top).translation
  {
    var c1, c2 := Clamp(r1, 0.0, MaxRatio), Clamp(r2, 0.0, MaxRatio);
    ClampMonotone(r1, r2, 0.0, MaxRatio);
    ScaleMonotone(c1, c2, t);
    var v1, v2 := -(c1 * t), -(c2 * t);
    assert v2 <= v1;
    RoundMonotone(v2, v1);
    assert Translation(r2, t) <= Translation(r1, t);
  }

  lemma ScaleMonotone(a: real, b: real, t: Threshold)
    requires a <= b
    ensures -(b * t) <= -(a * t)
  {
  }

  // ---------------------------------------------------------------------
  // Touch predicates

  /** A touch event lets the gesture go on exactly when it is a begin or an
      update, carries one point (touchscreen) or one or two points (other
      touch devices on macOS), and none of its points is released. */
  lemma TouchProceedsIff(phase: TouchPhase, touchscreen: bool, points: seq<TouchPoint>)
    ensures !TouchCancels(phase, touchscreen, points) <==>
              (phase == TouchBegin || phase == TouchUpdate)
              && (if touchscreen then |points| == 1 else 1 <= |points| <= 2)
              && (forall i :: 0 <= i < |points| ==> !points[i].released)
  {
  }

  /** A touch event that goes on is swallowed and leaves a started touch
      gesture behind.  If no touch gesture was under way, the new one starts
      at the first point with a null displacement; an undecided or
      horizontal touch gesture keeps its start and stores the displacement
      from the first point back to the start; a vertical one is left as it
      was. */
  lemma TouchUpdateDelta(m: Machine, t: Threshold, phase: TouchPhase, touchscreen: bool,
                         points: seq<TouchPoint>, p: Platform, finishFor: int -> FinishData, q: Query)
    requires TouchHandled(p, touchscreen) && !TouchCancels(phase, touchscreen, points)
    ensures |points| >= 1
    ensures var r := Filter(m, t, Touch(phase, touchscreen, points), p, finishFor, q);
      r.1 == Cancel && r.0.started && r.0.touch
    ensures var r := Filter(m, t, Touch(phase, touchscreen, points), p, finishFor, q);
      !(m.started && m.touch) ==> r.0.startAt == points[0].pos && r.0.delta == Origin
    ensures var r := Filter(m, t, Touch(phase, touchscreen, points), p, finishFor, q);
      m.started && m.touch && m.orientation != Some(Vertical) ==>
        r.0.startAt == m.startAt && r.0.delta == r.0.startAt.Minus(points[0].pos)
    ensures var r := Filter(m, t, Touch(phase, touchscreen, points), p, finishFor, q);
      m.started && m.touch && m.orientation == Some(Vertical) ==> r.0 == m
  {
  }

  /** A handled, non-cancelling wheel event on a wheel gesture that is
      undecided or horizontal subtracts the wheel's scroll delta from the
      stored displacement. */
  lemma WheelAccumulates(m: Machine, t: Threshold, phase: ScrollPhase, scrollDelta: Point, p: Platform,
                         finishFor: int -> FinishData, q: Query)
    requires WheelHandled(p, phase) && !WheelCancels(phase, false)
    requires m.started && !m.touch && m.orientation != Some(Vertical)
    ensures Filter(m, t, Wheel(phase, false, scrollDelta), p, finishFor, q).0.delta
            == Point(m.delta.x - scrollDelta.x, m.delta.y - scrollDelta.y)
    ensures Filter(m, t, Wheel(phase, false, scrollDelta), p, finishFor, q).1 == Continue
  {
  }

  /** A restart caused by a switch between touch and wheel input keeps the
      previous gesture's classification and reached flag when the new row
      has a finish callback, and turns a reached horizontal gesture into a
      reached vertical one when it has none. */
  lemma RestartKeepsReached(m: Machine, t: Threshold, a: UpdateArgs, finishFor: int -> FinishData, q: Query)
    requires m.started && m.touch != a.touch
    ensures Update(m, t, a, finishFor, q).reached == m.reached
    ensures finishFor(q.cursorY).hasCallback ==> Update(m, t, a, finishFor, q).orientation == m.orientation
    ensures !finishFor(q.cursorY).hasCallback ==> Update(m, t, a, finishFor, q).orientation == Some(Vertical)
  {
  }

  // ---------------------------------------------------------------------
  // Runs of updates

  /** One call of the update with its arguments and the host's answers. */
  datatype UpdateStep = UpdateStep(args: UpdateArgs, q: Query)

  /** The machine after a sequence of updates, applied in order. */
  function Updates(m: Machine, t: Threshold, finishFor: int -> FinishData, steps: seq<UpdateStep>): Machine
  {
    if steps == [] then m
    else
      var last := steps[|steps| - 1];
      Update(Updates(m, t, finishFor, steps[..|steps| - 1]), t, last.args, finishFor, last.q)
  }

  /** Once a started gesture is classified, further updates in the same
      input mode keep the classification. */
  lemma {:induction false} OrientationLocked(m: Machine, t: Threshold, finishFor: int -> FinishData,
                                             steps: seq<UpdateStep>)
    requires m.started && m.orientation.Some?
    requires forall i :: 0 <= i < |steps| ==> steps[i].args.touch == m.touch
    ensures Updates(m, t, finishFor, steps).orientation == m.orientation
    ensures Updates(m, t, finishFor, steps).started
    ensures Updates(m, t, finishFor, steps).touch == m.touch
  {
    if steps != [] {
      OrientationLocked(m, t, finishFor, steps[..|steps| - 1]);
    }
  }

  /** A gesture that is not horizontal stays so as long as every
      displacement is within the classification margin. */
  lemma {:induction false} NoHorizontalWithinMargin(m: Machine, t: Threshold, finishFor: int -> FinishData,
                                                    steps: seq<UpdateStep>)
    requires m.orientation != Some(Horizontal)
    requires forall i :: 0 <= i < |steps| ==> DiffXtoY(steps[i].args.delta) <= OrientationThreshold
    ensures Updates(m, t, finishFor, steps).orientation != Some(Horizontal)
  {
    if steps != [] {
      NoHorizontalWithinMargin(m, t, finishFor, steps[..|steps| - 1]);
    }
  }

  /** While a horizontal gesture never drops below the re-arm ratio, the
      haptic pulse fires at most once: exactly when the gesture was not yet
      reached and some update reaches ratio 1. */
  lemma {:induction false} HapticOncePerCrossing(m: Machine, t: Threshold, finishFor: int -> FinishData,
                                                 steps: seq<UpdateStep>)
    requires m.started && m.orientation == Some(Horizontal)
    requires forall i :: 0 <= i < |steps| ==> steps[i].args.touch == m.touch
    requires forall i :: 0 <= i < |steps| ==> Ratio(steps[i].args.delta, t) >= ResetReachedOn
    ensures Updates(m, t, finishFor, steps).reached ==
              (m.reached || exists i :: 0 <= i < |steps| && Ratio(steps[i].args.delta, t) >= ReachedOn)
    ensures Updates(m, t, finishFor, steps).haptics ==
              if !m.reached && exists i :: 0 <= i < |steps| && Ratio(steps[i].args.delta, t) >= ReachedOn
              then m.haptics + 1 else m.haptics
  {
    if steps != [] {
      var init := steps[..|steps| - 1];
      HapticOncePerCrossing(m, t, finishFor, init);
      OrientationLocked(m, t, finishFor, init);
      var last := steps[|steps| - 1];
      assert forall i :: 0 <= i < |init| ==> init[i] == steps[i];
      if exists i :: 0 <= i < |steps| && Ratio(steps[i].args.delta, t) >= ReachedOn {
        var i :| 0 <= i < |steps| && Ratio(steps[i].args.delta, t) >= ReachedOn;
        if i < |init| {
          assert init[i] == steps[i];
        }
      }
    }
  }

  // ---------------------------------------------------------------------
  // Runs of events

  /** Something the handler reacts to: an event on the history widget with
      the host's answers at that moment, a change of the scroll position,
      or a frame of the reach or the end animation (with the values the
      animations hold at that frame). */
  datatype Input =
    | Deliver(event: Event, q: Query)
    | ScrollChange
    | ReachFrame(reach: real)
    | EndFrame(ratio: real, reach: real)

  /** The handler's reaction to one input.  An animation delivers frames
      only while it runs. */
  function Step(m: Machine, t: Threshold, p: Platform, finishFor: int -> FinishData, i: Input): Machine
  {
    match i
    case Deliver(e, q) => Filter(m, t, e, p, finishFor, q).0
    case ScrollChange => Scrolled(m, t)
    case ReachFrame(reach) => if m.reachAnim.Running? then ReachTick(m, t, reach) else m
    case EndFrame(ratio, reach) => if m.endAnim.Running? then Report(m, t, ratio, reach) else m
  }

  /** The machine after a sequence of inputs, delivered in order. */
  function Run(m: Machine, t: Threshold, p: Platform, finishFor: int -> FinishData, ins: seq<Input>): Machine
  {
    if ins == [] then m
    else Step(Run(m, t, p, finishFor, ins[..|ins| - 1]), t, p, finishFor, ins[|ins| - 1])
  }

  /** An idle handler holds no classification and no reached flag, after
      any sequence of inputs. */
  lemma {:induction false} RunConsistent(m: Machine, t: Threshold, p: Platform, finishFor: int -> FinishData,
                                         ins: seq<Input>)
    requires Consistent(m)
    ensures Consistent(Run(m, t, p, finishFor, ins))
  {
    if ins != [] {
      RunConsistent(m, t, p, finishFor, ins[..|ins| - 1]);
    }
  }

  /** Once the host flags agree with the orientation, they keep agreeing:
      the orientation only ever changes together with them. */
  lemma {:induction false} RunFlagsAgree(m: Machine, t: Threshold, p: Platform, finishFor: int -> FinishData,
                                         ins: seq<Input>)
    requires FlagsAgree(m)
    ensures FlagsAgree(Run(m, t, p, finishFor, ins))
  {
    if ins != [] {
      RunFlagsAgree(m, t, p, finishFor, ins[..|ins| - 1]);
      StepFlagsAgree(Run(m, t, p, finishFor, ins[..|ins| - 1]), t, p, finishFor, ins[|ins| - 1]);
    }
  }

  /** The one-input case of `RunFlagsAgree`. */
  lemma StepFlagsAgree(m: Machine, t: Threshold, p: Platform, finishFor: int -> FinishData, i: Input)
    requires FlagsAgree(m)
    ensures FlagsAgree(Step(m, t, p, finishFor, i))
  {
    match i
    case Deliver(e, q) =>
      assert FlagsAgree(Filter(m, t, e, p, finishFor, q).0);
    case _ =>
  }

  /** An event posts the finish callback only when it ends a horizontal
      gesture that has a callback, and it leaves the handler idle, so a
      second post needs a new gesture to become horizontal. */
  lemma PostOnlyOnHorizontalEnd(m: Machine, t: Threshold, e: Event, p: Platform,
                                finishFor: int -> FinishData, q: Query)
    requires Filter(m, t, e, p, finishFor, q).0.posted != m.posted
    ensures m.orientation == Some(Horizontal) && m.finish.hasCallback
    ensures Filter(m, t, e, p, finishFor, q).0.posted == m.posted + 1
    ensures Filter(m, t, e, p, finishFor, q).0.orientation.None?
    ensures !Filter(m, t, e, p, finishFor, q).0.started
    ensures exists ov :: Filter(m, t, e, p, finishFor, q).0 == End(m, t, ov)
                         && Ratio(EndDelta(m, ov), t) >= ReachedOn
  {
    var ov := if e.Touch? then TouchEndDelta(m, e.points) else None;
    assert Filter(m, t, e, p, finishFor, q).0 == End(m, t, ov);
  }

  /** A sequence of inputs along which the gesture is never horizontal
      posts no callback, fires no haptic pulse and starts no animation, so
      from a handler with no animation running it reports no progress
      either: a vertical scroll passes through untouched. */
  lemma {:induction false} NeverHorizontalIsSilent(m: Machine, t: Threshold, p: Platform,
                                                   finishFor: int -> FinishData, ins: seq<Input>)
    requires forall k :: 0 <= k <= |ins| ==> Run(m, t, p, finishFor, ins[..k]).orientation != Some(Horizontal)
    ensures Run(m, t, p, finishFor, ins).posted == m.posted
    ensures Run(m, t, p, finishFor, ins).haptics == m.haptics
    ensures Run(m, t, p, finishFor, ins).reachAnim == m.reachAnim
    ensures Run(m, t, p, finishFor, ins).endAnim == m.endAnim
    ensures m.reachAnim == Idle && m.endAnim == Idle ==> Run(m, t, p, finishFor, ins).painted == m.painted
  {
    if ins != [] {
      var init := ins[..|ins| - 1];
      forall k | 0 <= k <= |init|
        ensures Run(m, t, p, finishFor, init[..k]).orientation != Some(Horizontal)
      {
        assert init[..k] == ins[..k];
      }
      NeverHorizontalIsSilent(m, t, p, finishFor, init);
      assert ins[..|init|] == init;
      StepSilent(Run(m, t, p, finishFor, init), t, p, finishFor, ins[|ins| - 1]);
    }
  }

  /** One input to a handler that is not horizontal posts nothing, fires no
      pulse, starts or stops no animation, and reports nothing unless an
      animation is still running. */
  lemma StepSilent(m: Machine, t: Threshold, p: Platform, finishFor: int -> FinishData, i: Input)
    requires m.orientation != Some(Horizontal)
    ensures var r := Step(m, t, p, finishFor, i);
      r.posted == m.posted && r.haptics == m.haptics && r.reachAnim == m.reachAnim && r.endAnim == m.endAnim
    ensures m.reachAnim == Idle && m.endAnim == Idle ==> Step(m, t, p, finishFor, i).painted == m.painted
  {
    if i.Deliver? {
      FilterSilent(m, t, i.event, p, finishFor, i.q);
    }
  }

  /** The event-filter case of `StepSilent`. */
  lemma FilterSilent(m: Machine, t: Threshold, e: Event, p: Platform, finishFor: int -> FinishData, q: Query)
    requires m.orientation != Some(Horizontal)
    ensures var r := Filter(m, t, e, p, finishFor, q).0;
      r.posted == m.posted && r.haptics == m.haptics && r.reachAnim == m.reachAnim
      && r.endAnim == m.endAnim && r.painted == m.painted
  {
    match e
    case Touch(phase, touchscreen, points) =>
      if TouchHandled(p, touchscreen) && !TouchCancels(phase, touchscreen, points) {
        var a := UpdateArgs(points[0].pos, m.startAt.Minus(points[0].pos), true);
        assert Filter(m, t, e, p, finishFor, q).0 == Update(m, t, a, finishFor, q);
      }
    case Wheel(phase, buttons, scrollDelta) =>
      if WheelHandled(p, phase) && !WheelCancels(phase, buttons) {
        var a := UpdateArgs(Origin, m.delta.Minus(scrollDelta), false);
        assert Filter(m, t, e, p, finishFor, q).0 == Update(m, t, a, finishFor, q);
      }
    case _ =>
  }

  // ---------------------------------------------------------------------
  // Scenarios

  /** Every row has a finish callback for message 7. */
  function RowWithCallback(cursorY: int): FinishData {
    FinishData(7, true)
  }

  /** On a touchscreen with an unscaled threshold: a finger goes down at
      (0, 0), moves left to (-60, 0) (classified horizontal), moves again
      (tracked at ratio 1.2: reached, one haptic pulse) and is released at
      (-65, 0).  The finish callback is posted once and the end animation
      starts from ratio 1.3. */
  lemma ScenarioSwipeToReply()
    ensures
      var p := Platform(false, 10);
      var q := Query(0, 0.0);
      var m0 := Initial(true, false);
      var m1 := Filter(m0, ThresholdWidth, Touch(TouchBegin, true, [TouchPoint(Point(0.0, 0.0), false)]),
                       p, RowWithCallback, q).0;
      var m2 := Filter(m1, ThresholdWidth, Touch(TouchUpdate, true, [TouchPoint(Point(-60.0, 0.0), false)]),
                       p, RowWithCallback, q).0;
      var m3 := Filter(m2, ThresholdWidth, Touch(TouchUpdate, true, [TouchPoint(Point(-60.0, 0.0), false)]),
                       p, RowWithCallback, q).0;
      var m4 := Filter(m3, ThresholdWidth, Touch(TouchEnd, true, [TouchPoint(Point(-65.0, 0.0), true)]),
                       p, RowWithCallback, q).0;
      m2.orientation == Some(Horizontal) && !m2.reached && m2.haptics == 0 && m2.scrollDisabled
      && m3.reached && m3.haptics == 1 && m3.reachAnim == Running(0.0, 1.0)
      && m3.painted[|m3.painted| - 1].ratio == 1.2
      && m4.posted == 1 && m4.endAnim == Running(1.3, 0.0)
      && m4.orientation.None? && !m4.started && !m4.reached && !m4.scrollDisabled
  {
    var m1 := SwipeDown();
    var m2 := SwipeClassify(m1);
    var m3 := SwipeTrack(m2);
    SwipeRelease(m3);
  }

  lemma SwipeDown() returns (m1: Machine)
    ensures m1 == Filter(Initial(true, false), ThresholdWidth,
                         Touch(TouchBegin, true, [TouchPoint(Point(0.0, 0.0), false)]),
                         Platform(false, 10), RowWithCallback, Query(0, 0.0)).0
    ensures m1.started && m1.touch && m1.orientation.None? && !m1.reached
    ensures m1.startAt == Origin && m1.finish == FinishData(7, true)
    ensures m1.posted == 0 && m1.haptics == 0
  {
    m1 := Start(Initial(true, false), Origin, true, RowWithCallback, 0);
  }

  lemma SwipeClassify(m1: Machine) returns (m2: Machine)
    requires m1.started && m1.touch && m1.orientation.None? && !m1.reached
    requires m1.startAt == Origin && m1.finish == FinishData(7, true)
    requires m1.posted == 0 && m1.haptics == 0
    ensures m2 == Filter(m1, ThresholdWidth, Touch(TouchUpdate, true, [TouchPoint(Point(-60.0, 0.0), false)]),
                         Platform(false, 10), RowWithCallback, Query(0, 0.0)).0
    ensures m2.started && m2.touch && m2.orientation == Some(Horizontal) && !m2.reached
    ensures m2.startAt == Origin && m2.finish == FinishData(7, true) && m2.scrollDisabled
    ensures m2.posted == 0 && m2.haptics == 0
  {
    m2 := Classify(m1, Point(60.0, 0.0));
  }

  lemma SwipeTrack(m2: Machine) returns (m3: Machine)
    requires m2.started && m2.touch && m2.orientation == Some(Horizontal) && !m2.reached
    requires m2.startAt == Origin && m2.finish == FinishData(7, true)
    requires m2.posted == 0 && m2.haptics == 0
    ensures m3 == Filter(m2, ThresholdWidth, Touch(TouchUpdate, true, [TouchPoint(Point(-60.0, 0.0), false)]),
                         Platform(false, 10), RowWithCallback, Query(0, 0.0)).0
    ensures m3.started && m3.touch && m3.orientation == Some(Horizontal)
    ensures m3.reached && m3.haptics == 1 && m3.reachAnim == Running(0.0, 1.0)
    ensures m3.painted[|m3.painted| - 1].ratio == 1.2
    ensures m3.startAt == Origin && m3.finish == FinishData(7, true) && m3.posted == 0
  {
    assert Ratio(Point(60.0, 0.0), ThresholdWidth) == 1.2;
    m3 := Track(m2, ThresholdWidth, Point(60.0, 0.0), 0.0);
  }

  lemma SwipeRelease(m3: Machine)
    requires m3.started && m3.touch && m3.orientation == Some(Horizontal)
    requires m3.startAt == Origin && m3.finish == FinishData(7, true) && m3.posted == 0
    ensures var m4 := Filter(m3, ThresholdWidth, Touch(TouchEnd, true, [TouchPoint(Point(-65.0, 0.0), true)]),
                             Platform(false, 10), RowWithCallback, Query(0, 0.0)).0;
      m4.posted == 1 && m4.endAnim == Running(1.3, 0.0)
      && m4.orientation.None? && !m4.started && !m4.reached && !m4.scrollDisabled
  {
  }

  /** A finger that goes down at (0, 0) and moves to (0, 40) makes the
      gesture vertical; lifting it posts nothing and animates nothing. */
  lemma ScenarioVerticalScroll()
    ensures
      var p := Platform(false, 10);
      var q := Query(0, 0.0);
      var m0 := Initial(true, false);
      var m1 := Filter(m0, ThresholdWidth, Touch(TouchBegin, true, [TouchPoint(Point(0.0, 0.0), false)]),
                       p, RowWithCallback, q).0;
      var m2 := Filter(m1, ThresholdWidth, Touch(TouchUpdate, true, [TouchPoint(Point(0.0, 40.0), false)]),
                       p, RowWithCallback, q).0;
      var m3 := Filter(m2, ThresholdWidth, Touch(TouchEnd, true, [TouchPoint(Point(0.0, 40.0), true)]),
                       p, RowWithCallback, q).0;
      m2.orientation == Some(Vertical) && !m2.scrollDisabled && m2.acceptTouch
      && m3.posted == 0 && m3.haptics == 0 && m3.painted == [] && m3.endAnim == Idle
  {
  }

  /** A horizontal gesture at ratio 0.5 that leaves the widget posts
      nothing; the end animation starts from 0.5. */
  lemma ScenarioLeaveBeforeThreshold()
    ensures
      var p := Platform(false, 10);
      var q := Query(0, 0.0);
      var m0 := Initial(true, false);
      var m1 := Filter(m0, ThresholdWidth, Touch(TouchBegin, true, [TouchPoint(Point(0.0, 0.0), false)]),
                       p, RowWithCallback, q).0;
      var m2 := Filter(m1, ThresholdWidth, Touch(TouchUpdate, true, [TouchPoint(Point(-25.0, 0.0), false)]),
                       p, RowWithCallback, q).0;
      var m3 := Filter(m2, ThresholdWidth, Leave, p, RowWithCallback, q).0;
      m2.orientation == Some(Horizontal)
      && m3.posted == 0 && m3.endAnim == Running(0.5, 0.0) && m3.orientation.None?
  {
  }
}
