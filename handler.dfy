/** The swipe handler as the object it is: one record whose fields the
    handler's closures update in place.  Every method is proved to take the
    record exactly where the corresponding `Gesture` transition takes its
    value, so the properties proved of those transitions hold of the object. */
module Handler {
  import opened Geometry
  import opened Gesture

  class SwipeHandler {
    /** The scaled swipe distance. */
    const threshold: Threshold
    /** The host's finish-target lookup for a cursor row. */
    const finishFor: int -> FinishData

    var orientation: Option<Orientation>
    var startAt: Point
    var delta: Point
    var cursorTop: int
    var started: bool
    var reached: bool
    var touch: bool
    var finish: FinishData

    // Effects on the host, recorded instead of performed.
    var acceptTouch: bool
    var scrollDisabled: bool
    var posted: nat
    var haptics: nat
    var reachAnim: Anim
    var endAnim: Anim
    var painted: seq<PaintData>

    /** The object's state as a `Gesture.Machine` value. */
    ghost function Snapshot(): Machine
      reads this
    {
      Machine(orientation, startAt, delta, cursorTop, started, reached, touch, finish,
              acceptTouch, scrollDisabled, posted, haptics, reachAnim, endAnim, painted)
    }

    /** The class invariant: an idle handler is unclassified and not
        reached.  `ProcessEnd`, `OnScroll` and `UpdateWith` establish it
        from any state; `Filter` and `ReachAnimationTick`, which may leave
        the record as it is, preserve it. */
    ghost predicate Valid()
      reads this
    {
      Consistent(Snapshot())
    }

    /** Installs the handler; the two flags are the host widgets' own. */
    constructor (threshold: Threshold, finishFor: int -> FinishData,
                 viewportAcceptsTouch: bool, scrollIsDisabled: bool)
      ensures Valid()
      ensures Snapshot() == Initial(viewportAcceptsTouch, scrollIsDisabled)
      ensures this.threshold == threshold && this.finishFor == finishFor
    {
      this.threshold := threshold;
      this.finishFor := finishFor;
      orientation := None;
      startAt := Origin;
      delta := Origin;
      cursorTop := 0;
      started := false;
      reached := false;
      touch := false;
      finish := NoFinish;
      acceptTouch := viewportAcceptsTouch;
      scrollDisabled := scrollIsDisabled;
      posted := 0;
      haptics := 0;
      reachAnim := Idle;
      endAnim := Idle;
      painted := [];
    }

    /** Reports `ratio` to the host's update callback. */
    method UpdateRatio(ratio: real, reach: real)
      modifies this`painted
      ensures painted == old(painted) + [Paint(ratio, reach, threshold, finish.msgBareId, cursorTop)]
      ensures Snapshot() == Report(old(Snapshot()), threshold, ratio, reach)
    {
      painted := painted + [Paint(ratio, reach, threshold, finish.msgBareId, cursorTop)];
    }

    /** Records `o` and makes the viewport accept touch events unless `o`
        is horizontal and disables scrolling exactly when it is. */
    method SetOrientation(o: Option<Orientation>)
      modifies this`orientation, this`acceptTouch, this`scrollDisabled
      ensures orientation == o
      ensures acceptTouch == (o != Some(Horizontal))
      ensures scrollDisabled == (o == Some(Horizontal))
      ensures Snapshot() == Gesture.SetOrientation(old(Snapshot()), o)
    {
      orientation := o;
      var isHorizontal := o == Some(Horizontal);
      acceptTouch := !isHorizontal;
      scrollDisabled := isHorizontal;
    }

    /** Ends the gesture, with `override` standing in for the stored
        displacement when given. */
    method ProcessEnd(override: Option<Point>)
      modifies this
      ensures Valid()
      ensures Snapshot() == End(old(Snapshot()), threshold, override)
    {
      if orientation == Some(Horizontal) {
        ReleaseGesture(override.ValueOr(delta));
      }
      SetOrientation(None);
      started, reached := false, false;
    }

    /** The horizontal part of `ProcessEnd` (see `Gesture.Release`), split
        out so that it is proved on its own. */
    method ReleaseGesture(d: Point)
      modifies this`posted, this`reachAnim, this`endAnim
      ensures Snapshot() == Release(old(Snapshot()), threshold, d)
    {
      var ratio := Ratio(d, threshold);
      if ratio >= ReachedOn && finish.hasCallback {
        posted := posted + 1;
      }
      reachAnim := Idle;
      endAnim := Idle;
      endAnim := Running(ratio, 0.0);
    }

    /** A change of the scroll position ends the gesture. */
    method OnScroll()
      modifies this
      ensures Valid()
      ensures Snapshot() == Scrolled(old(Snapshot()), threshold)
    {
      ProcessEnd(None);
    }

    /** A tick of the reach animation reports the current ratio again. */
    method ReachAnimationTick(reach: real)
      requires Valid()
      modifies this`painted
      ensures Valid()
      ensures Snapshot() == ReachTick(old(Snapshot()), threshold, reach)
    {
      UpdateRatio(Ratio(delta, threshold), reach);
    }

    // The three steps below are the branches of the handler's update
    // closure, split out so that each is proved on its own; only
    // `UpdateWith` calls them, and it re-establishes `Valid()`.

    /** A fresh start of a gesture (see `Gesture.Start`). */
    method StartGesture(position: Point, touch: bool, cursorY: int)
      modifies this
      ensures Snapshot() == Start(old(Snapshot()), position, touch, finishFor, cursorY)
    {
      started := true;
      this.touch := touch;
      startAt := position;
      delta := Origin;
      cursorTop := cursorY;
      finish := finishFor(cursorTop);
      if !finish.hasCallback {
        SetOrientation(Some(Vertical));
      }
    }

    /** Classifies an undecided gesture by `delta` (see `Gesture.Classify`). */
    method ClassifyGesture(delta: Point)
      modifies this
      ensures Snapshot() == Classify(old(Snapshot()), delta)
    {
      this.delta := delta;
      var diffXtoY := Abs(delta.x) - Abs(delta.y);
      if diffXtoY > OrientationThreshold {
        SetOrientation(Some(Horizontal));
      } else if diffXtoY < -OrientationThreshold {
        SetOrientation(Some(Vertical));
      } else {
        SetOrientation(None);
      }
    }

    /** Tracks a horizontal gesture at `delta` (see `Gesture.Track`). */
    method TrackGesture(delta: Point, reach: real)
      modifies this
      ensures Snapshot() == Track(old(Snapshot()), threshold, delta, reach)
    {
      this.delta := delta;
      var ratio := Ratio(delta, threshold);
      UpdateRatio(ratio, reach);
      UpdateReached(ratio);
    }

    /** The reached flag's hysteresis (see `Gesture.Reach`). */
    method UpdateReached(ratio: real)
      modifies this`reached, this`reachAnim, this`haptics
      ensures Snapshot() == Reach(old(Snapshot()), ratio)
    {
      if !reached && ratio >= ReachedOn {
        reached := true;
        reachAnim := Idle;
        reachAnim := Running(0.0, 1.0);
        haptics := haptics + 1;
      } else if reached && ratio < ResetReachedOn {
        reached := false;
      }
    }

    /** Starts, classifies or tracks the gesture. */
    method UpdateWith(position: Point, delta: Point, touch: bool, q: Query)
      modifies this
      ensures Valid()
      ensures Snapshot() == Update(old(Snapshot()), threshold, UpdateArgs(position, delta, touch), finishFor, q)
    {
      if !started || this.touch != touch {
        StartGesture(position, touch, q.cursorY);
      } else if orientation.None? {
        ClassifyGesture(delta);
      } else if orientation.value == Horizontal {
        TrackGesture(delta, q.reachValue);
      }
    }

    /** The event filter installed on the history widget. */
    method Filter(e: Event, p: Platform, q: Query) returns (result: FilterResult)
      requires Valid()
      modifies this
      ensures Valid()
      ensures (Snapshot(), result) == Gesture.Filter(old(Snapshot()), threshold, e, p, finishFor, q)
    {
      result := Continue;
      match e {
        case Leave =>
          if orientation.Some? {
            ProcessEnd(None);
          }
        case MouseMove(y) =>
          if orientation.Some? && AbsInt(y - cursorTop) > p.dragDistance {
            ProcessEnd(None);
          }
        case Touch(phase, touchscreen, points) =>
          if p.isMac || touchscreen {
            var cancel := Released(points, 0)
              || Released(points, 1)
              || (if touchscreen then |points| != 1 else |points| <= 0 || |points| > 2)
              || phase == TouchEnd
              || phase == TouchCancel;
            if cancel {
              ProcessEnd(if |points| == 0 then None else Some(startAt.Minus(points[0].pos)));
            } else {
              UpdateWith(points[0].pos, startAt.Minus(points[0].pos), true, q);
            }
            result := Cancel;
          }
        case Wheel(phase, buttons, scrollDelta) =>
          if !p.isMac && phase != NoScrollPhase {
            var cancel := buttons || phase == ScrollEnd || phase == ScrollMomentum;
            if cancel {
              ProcessEnd(None);
            } else {
              UpdateWith(Origin, delta.Minus(scrollDelta), false, q);
            }
          }
        case Other =>
      }
    }
  }
}
