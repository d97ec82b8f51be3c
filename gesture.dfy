/** The swipe-to-reply gesture recogniser of a chat history view, as values.

    A `Machine` is the handler's whole mutable record together with the
    observable effects the handler has on its host (scroll and touch flags,
    posted finish callbacks, haptic pulses, animations started, progress
    reports).  Each transition of the handler is a function from the old
    machine to the new one; the `Handler` module proves its imperative
    methods against these functions. */
module Gesture {
  import opened Geometry

  datatype Option<T> = None | Some(value: T) {
    function ValueOr(default: T): T {
      match this
      case Some(v) => v
      case None => default
    }
  }

  datatype Orientation = Horizontal | Vertical

  /** The finish target resolved for the row under the cursor: the id of
      the message and whether a finish callback exists for it. */
  datatype FinishData = FinishData(msgBareId: int, hasCallback: bool)

  /** A default-constructed finish target: no message, no callback. */
  const NoFinish := FinishData(0, false)

  /** A UI animation, recorded only by the values it was started with. */
  datatype Anim = Idle | Running(from: real, to: real)

  /** The progress report handed to the host's `update` callback. */
  datatype PaintData = PaintData(
    ratio: real,
    reachRatio: real,
    translation: int,
    msgBareId: int,
    cursorTop: int)

  /** The swipe distance in pixels; positive after display scaling. */
  type Threshold = t: real | t > 0.0 witness 1.0

  /** Unscaled swipe distance (kThresholdWidth). */
  const ThresholdWidth: Threshold := 50.0

  /** Largest ratio reported to the host. */
  const MaxRatio := 1.5

  /** How much |dx| and |dy| must differ before the gesture is classified. */
  const OrientationThreshold := 1.0

  /** The ratio at or above which the swipe has reached its action. */
  const ReachedOn := 1.0

  /** Below this ratio a reached swipe is re-armed (hysteresis). */
  const ResetReachedOn := 0.95

  /** The handler's state record and the effects it has caused so far. */
  datatype Machine = Machine(
    orientation: Option<Orientation>,
    startAt: Point,
    delta: Point,
    cursorTop: int,
    started: bool,
    reached: bool,
    touch: bool,
    finish: FinishData,
    // the viewport's "accept touch events" attribute
    acceptTouch: bool,
    // the scroll area's "scroll disabled" flag
    scrollDisabled: bool,
    // finish callbacks posted to the event loop
    posted: nat,
    // haptic pulses fired
    haptics: nat,
    reachAnim: Anim,
    endAnim: Anim,
    // every report given to the host's update callback, in order
    painted: seq<PaintData>)

  /** The record as created when the handler is installed; the two host
      flags are whatever the host widgets start with. */
  function Initial(acceptTouch: bool, scrollDisabled: bool): (m: Machine)
    ensures m.orientation.None? && !m.started && !m.reached && !m.touch
    ensures m.posted == 0 && m.haptics == 0 && m.painted == []
  {
    Machine(None, Origin, Origin, 0, false, false, false, NoFinish,
            acceptTouch, scrollDisabled, 0, 0, Idle, Idle, [])
  }

  /** The values an update is made from: where the cursor is, the
      displacement it implies, and whether it comes from a touch. */
  datatype UpdateArgs = UpdateArgs(position: Point, delta: Point, touch: bool)

  /** Values the handler reads from its host during one step: the cursor's
      y in widget coordinates and the reach animation's current value. */
  datatype Query = Query(cursorY: int, reachValue: real)

  /** The swipe progress of a displacement. */
  function Ratio(d: Point, t: Threshold): real {
    d.x / t
  }

  /** The pixel shift of the bubble for `ratio`: `-ratio * t` with the
      ratio clamped to `[0, MaxRatio]`, rounded half away from zero.  It
      lies within half a pixel of the exact shift, so between
      `-MaxRatio * t - 1/2` and 0. */
  function Translation(ratio: real, t: Threshold): (px: int)
    ensures var c := Clamp(ratio, 0.0, MaxRatio);
      -(c * t) - 0.5 <= px as real <= -(c * t) + 0.5
    ensures -(MaxRatio * t) - 0.5 <= px as real && px <= 0
  {
    var c := Clamp(ratio, 0.0, MaxRatio);
    var shift := Round(-(c * t));
    assert 0.0 <= c * t <= MaxRatio * t;
    assert -(c * t) - 0.5 <= shift as real;
    shift
  }

  /** The report for `ratio`: the ratio clamped to `[0, MaxRatio]`, the
      reach animation's value, the pixel translation, and the finish
      target's message and cursor row. */
  function Paint(ratio: real, reach: real, t: Threshold, msgBareId: int, cursorTop: int): (d: PaintData)
    ensures 0.0 <= d.ratio <= MaxRatio
    ensures 0.0 <= ratio <= MaxRatio ==> d.ratio == ratio
    ensures ratio < 0.0 ==> d.ratio == 0.0
    ensures MaxRatio < ratio ==> d.ratio == MaxRatio
    ensures -(d.ratio * t) - 0.5 <= d.translation as real <= -(d.ratio * t) + 0.5
    ensures -(MaxRatio * t) - 0.5 <= d.translation as real && d.translation <= 0
    ensures d.reachRatio == reach && d.msgBareId == msgBareId && d.cursorTop == cursorTop
  {
    PaintData(Clamp(ratio, 0.0, MaxRatio), reach, Translation(ratio, t), msgBareId, cursorTop)
  }

  /** Appends the report for `ratio` to the machine's log. */
  function Report(m: Machine, t: Threshold, ratio: real, reach: real): (r: Machine)
    ensures r.painted == m.painted + [Paint(ratio, reach, t, m.finish.msgBareId, m.cursorTop)]
    ensures r.(painted := m.painted) == m
  {
    m.(painted := m.painted + [Paint(ratio, reach, t, m.finish.msgBareId, m.cursorTop)])
  }

  /** Records the orientation and sets the host flags to match it: touch
      events are accepted unless horizontal, scrolling is disabled exactly
      when horizontal. */
  function SetOrientation(m: Machine, o: Option<Orientation>): (r: Machine)
    ensures r.orientation == o
    ensures r.acceptTouch <==> o != Some(Horizontal)
    ensures r.scrollDisabled <==> o == Some(Horizontal)
    ensures r.(acceptTouch := m.acceptTouch, scrollDisabled := m.scrollDisabled, orientation := m.orientation) == m
  {
    m.(orientation := o, acceptTouch := o != Some(Horizontal), scrollDisabled := o == Some(Horizontal))
  }

  /** The displacement a gesture ends with: the override when one is given. */
  function EndDelta(m: Machine, override: Option<Point>): Point {
    override.ValueOr(m.delta)
  }

  /** Ending a gesture.  A horizontal one posts the finish callback when it
      exists and the final ratio is at least 1, stops the reach animation
      and starts the end animation from the final ratio back to 0.  Every
      gesture is left unclassified, not started and not reached. */
  function End(m: Machine, t: Threshold, override: Option<Point>): (r: Machine)
    ensures r.orientation.None? && !r.started && !r.reached
    ensures r.acceptTouch && !r.scrollDisabled
    ensures r.posted == (if m.orientation == Some(Horizontal) && m.finish.hasCallback
                            && Ratio(EndDelta(m, override), t) >= ReachedOn
                         then m.posted + 1 else m.posted)
    ensures m.orientation == Some(Horizontal) ==>
              r.reachAnim == Idle && r.endAnim == Running(Ratio(EndDelta(m, override), t), 0.0)
    ensures m.orientation != Some(Horizontal) ==>
              r.reachAnim == m.reachAnim && r.endAnim == m.endAnim
    ensures r.startAt == m.startAt && r.delta == m.delta && r.cursorTop == m.cursorTop
    ensures r.touch == m.touch && r.finish == m.finish
    ensures r.haptics == m.haptics && r.painted == m.painted
  {
    var ended := if m.orientation == Some(Horizontal) then Release(m, t, EndDelta(m, override)) else m;
    SetOrientation(ended, None).(started := false, reached := false)
  }

  /** The horizontal part of ending a gesture at displacement `d`: post the
      finish callback when it exists and the final ratio is at least 1, stop
      the reach animation and start the end animation from that ratio. */
  function Release(m: Machine, t: Threshold, d: Point): (r: Machine)
    ensures r.posted == (if m.finish.hasCallback && Ratio(d, t) >= ReachedOn then m.posted + 1 else m.posted)
    ensures r.reachAnim == Idle && r.endAnim == Running(Ratio(d, t), 0.0)
    ensures r.(posted := m.posted, reachAnim := m.reachAnim, endAnim := m.endAnim) == m
  {
    var ratio := Ratio(d, t);
    m.(posted := if ratio >= ReachedOn && m.finish.hasCallback then m.posted + 1 else m.posted,
       reachAnim := Idle,
       endAnim := Running(ratio, 0.0))
  }

  /** A fresh start: remember where the gesture began, clear the
      displacement, look up the finish target under the cursor, and force
      vertical (scrolling) mode when there is no finish callback.  A start
      never makes a gesture horizontal. */
  function Start(m: Machine, position: Point, touch: bool, finishFor: int -> FinishData, cursorY: int): (r: Machine)
    ensures r.started && r.touch == touch
    ensures r.startAt == position && r.delta == Origin
    ensures r.cursorTop == cursorY && r.finish == finishFor(cursorY)
    ensures r.orientation == (if r.finish.hasCallback then m.orientation else Some(Vertical))
    ensures r.orientation == Some(Horizontal) ==> m.orientation == Some(Horizontal)
    ensures r.finish.hasCallback ==> r.acceptTouch == m.acceptTouch && r.scrollDisabled == m.scrollDisabled
    ensures !r.finish.hasCallback ==> r.acceptTouch && !r.scrollDisabled
    ensures r.reached == m.reached && r.posted == m.posted && r.haptics == m.haptics
    ensures r.reachAnim == m.reachAnim && r.endAnim == m.endAnim && r.painted == m.painted
  {
    var finish := finishFor(cursorY);
    var s := m.(started := true, touch := touch, startAt := position, delta := Origin,
                cursorTop := cursorY, finish := finish);
    if finish.hasCallback then s else SetOrientation(s, Some(Vertical))
  }

  /** `|dx| - |dy|`: positive when the displacement is more horizontal. */
  function DiffXtoY(d: Point): real {
    Abs(d.x) - Abs(d.y)
  }

  /** The orientation a displacement decides, if any. */
  function Classification(d: Point): (o: Option<Orientation>)
    ensures o == Some(Horizontal) <==> DiffXtoY(d) > OrientationThreshold
    ensures o == Some(Vertical) <==> DiffXtoY(d) < -OrientationThreshold
    ensures o == None <==> -OrientationThreshold <= DiffXtoY(d) <= OrientationThreshold
  {
    var diff := DiffXtoY(d);
    if diff > OrientationThreshold then Some(Horizontal)
    else if diff < -OrientationThreshold then Some(Vertical)
    else None
  }

  /** An update while undecided: store the displacement and classify it. */
  function Classify(m: Machine, delta: Point): (r: Machine)
    ensures r.orientation == Classification(delta) && r.delta == delta
    ensures FlagsAgree(r)
    ensures r.started == m.started && r.touch == m.touch && r.reached == m.reached
    ensures r.startAt == m.startAt && r.cursorTop == m.cursorTop && r.finish == m.finish
    ensures r.posted == m.posted && r.haptics == m.haptics
    ensures r.reachAnim == m.reachAnim && r.endAnim == m.endAnim && r.painted == m.painted
  {
    SetOrientation(m.(delta := delta), Classification(delta))
  }

  /** An update of a horizontal gesture: store the displacement, report the
      ratio, and apply the reach hysteresis.  The flag turns on when the
      ratio reaches 1 (starting the reach animation and a haptic pulse) and
      turns off only when the ratio drops below 0.95. */
  function Track(m: Machine, t: Threshold, delta: Point, reach: real): (r: Machine)
    ensures r.reached == (if m.reached then Ratio(delta, t) >= ResetReachedOn
                          else Ratio(delta, t) >= ReachedOn)
    ensures r.haptics == (if !m.reached && Ratio(delta, t) >= ReachedOn then m.haptics + 1 else m.haptics)
    ensures r.reachAnim == (if !m.reached && Ratio(delta, t) >= ReachedOn then Running(0.0, 1.0) else m.reachAnim)
    ensures r.painted == m.painted + [Paint(Ratio(delta, t), reach, t, m.finish.msgBareId, m.cursorTop)]
    ensures r.delta == delta && r.orientation == m.orientation
    ensures r.acceptTouch == m.acceptTouch && r.scrollDisabled == m.scrollDisabled
    ensures r.started == m.started && r.touch == m.touch
    ensures r.startAt == m.startAt && r.cursorTop == m.cursorTop && r.finish == m.finish
    ensures r.posted == m.posted && r.endAnim == m.endAnim
  {
    var ratio := Ratio(delta, t);
    Reach(Report(m.(delta := delta), t, ratio, reach), ratio)
  }

  /** The reached flag's hysteresis at `ratio`: it is set (with a haptic
      pulse and a restart of the reach animation) when the ratio reaches 1,
      and cleared once the ratio drops below 0.95. */
  function Reach(m: Machine, ratio: real): (r: Machine)
    ensures r.reached == (if m.reached then ratio >= ResetReachedOn else ratio >= ReachedOn)
    ensures r.haptics == (if !m.reached && ratio >= ReachedOn then m.haptics + 1 else m.haptics)
    ensures r.reachAnim == (if !m.reached && ratio >= ReachedOn then Running(0.0, 1.0) else m.reachAnim)
    ensures r.(reached := m.reached, haptics := m.haptics, reachAnim := m.reachAnim) == m
  {
    if !m.reached && ratio >= ReachedOn then
      m.(reached := true, reachAnim := Running(0.0, 1.0), haptics := m.haptics + 1)
    else if m.reached && ratio < ResetReachedOn then
      m.(reached := false)
    else
      m
  }

  /** Whether an update with `a` starts a new gesture. */
  predicate Restarts(m: Machine, a: UpdateArgs) {
    !m.started || m.touch != a.touch
  }

  /** One update: a fresh start, a classification, a horizontal step, or
      nothing for a vertical gesture. */
  function Update(m: Machine, t: Threshold, a: UpdateArgs, finishFor: int -> FinishData, q: Query): (r: Machine)
    ensures r.started && r.touch == a.touch
    ensures !Restarts(m, a) && m.orientation.Some? ==> r.orientation == m.orientation
    ensures r.orientation == Some(Horizontal) ==>
              m.orientation == Some(Horizontal)
              || (!Restarts(m, a) && m.orientation.None? && DiffXtoY(a.delta) > OrientationThreshold)
    ensures r.posted == m.posted && r.endAnim == m.endAnim
    ensures r.haptics == m.haptics || r.haptics == m.haptics + 1
  {
    if Restarts(m, a) then Start(m, a.position, a.touch, finishFor, q.cursorY)
    else if m.orientation.None? then Classify(m, a.delta)
    else if m.orientation.value == Horizontal then Track(m, t, a.delta, q.reachValue)
    else m
  }

  /** The handler's record is consistent when an idle handler holds no
      classification and no reached flag. */
  predicate Consistent(m: Machine) {
    !m.started ==> m.orientation.None? && !m.reached
  }

  /** The host flags agree with the recorded orientation. */
  predicate FlagsAgree(m: Machine) {
    m.acceptTouch == (m.orientation != Some(Horizontal))
    && m.scrollDisabled == (m.orientation == Some(Horizontal))
  }

  // ---------------------------------------------------------------------
  // Events

  datatype TouchPhase = TouchBegin | TouchUpdate | TouchEnd | TouchCancel

  /** One touch point: where it is and whether its state has the released bit. */
  datatype TouchPoint = TouchPoint(pos: Point, released: bool)

  datatype ScrollPhase = NoScrollPhase | ScrollBegin | ScrollUpdate | ScrollEnd | ScrollMomentum

  /** The events the handler looks at; `Other` stands for every other kind. */
  datatype Event =
    | Leave
    | MouseMove(y: int)
    | Touch(touchPhase: TouchPhase, touchscreen: bool, points: seq<TouchPoint>)
    | Wheel(scrollPhase: ScrollPhase, buttons: bool, scrollDelta: Point)
    | Other

  /** Platform answers: whether this is macOS and the drag start distance. */
  datatype Platform = Platform(isMac: bool, dragDistance: int)

  /** What the event filter tells the toolkit: keep delivering, or stop. */
  datatype FilterResult = Continue | Cancel

  /** Point `i` exists and has been released. */
  predicate Released(points: seq<TouchPoint>, i: nat) {
    |points| > i && points[i].released
  }

  /** Whether a touch event ends the gesture. */
  predicate TouchCancels(phase: TouchPhase, touchscreen: bool, points: seq<TouchPoint>)
    ensures phase == TouchEnd || phase == TouchCancel ==> TouchCancels(phase, touchscreen, points)
    ensures !TouchCancels(phase, touchscreen, points) ==>
              1 <= |points| <= 2 && (touchscreen ==> |points| == 1) && !points[0].released
  {
    Released(points, 0)
    || Released(points, 1)
    || (if touchscreen then |points| != 1 else |points| <= 0 || |points| > 2)
    || phase == TouchEnd
    || phase == TouchCancel
  }

  /** Touch events are handled only on macOS or from a touchscreen. */
  predicate TouchHandled(p: Platform, touchscreen: bool)
    ensures p.isMac ==> TouchHandled(p, touchscreen)
    ensures !p.isMac ==> (TouchHandled(p, touchscreen) <==> touchscreen)
  {
    p.isMac || touchscreen
  }

  /** Wheel events are handled only off macOS and with a scroll phase. */
  predicate WheelHandled(p: Platform, phase: ScrollPhase)
    ensures p.isMac ==> !WheelHandled(p, phase)
    ensures !p.isMac ==> (WheelHandled(p, phase) <==> phase != NoScrollPhase)
  {
    !p.isMac && phase != NoScrollPhase
  }

  /** Whether a handled wheel event ends the gesture. */
  predicate WheelCancels(phase: ScrollPhase, buttons: bool)
    ensures phase != NoScrollPhase ==>
              (!WheelCancels(phase, buttons) <==> !buttons && (phase == ScrollBegin || phase == ScrollUpdate))
  {
    buttons || phase == ScrollEnd || phase == ScrollMomentum
  }

  /** The override displacement a cancelling touch event ends with. */
  function TouchEndDelta(m: Machine, points: seq<TouchPoint>): Option<Point> {
    if |points| == 0 then None else Some(m.startAt.Minus(points[0].pos))
  }

  /** The event filter: the new machine and the filter's answer. */
  function Filter(m: Machine, t: Threshold, e: Event, p: Platform,
                  finishFor: int -> FinishData, q: Query): (r: (Machine, FilterResult))
    ensures r.1 == Cancel <==> e.Touch? && TouchHandled(p, e.touchscreen)
    ensures e.Other? || (e.Leave? && m.orientation.None?)
            || (e.Touch? && !TouchHandled(p, e.touchscreen))
            || (e.Wheel? && !WheelHandled(p, e.scrollPhase))
            ==> r.0 == m
    ensures (e.Leave? && m.orientation.Some?)
            || (e.Touch? && TouchHandled(p, e.touchscreen) && TouchCancels(e.touchPhase, e.touchscreen, e.points))
            || (e.Wheel? && WheelHandled(p, e.scrollPhase) && WheelCancels(e.scrollPhase, e.buttons))
            ==> r.0.orientation.None? && !r.0.started && !r.0.reached
    ensures e.Leave? && m.orientation.Some? ==> r.0 == End(m, t, None)
    ensures e.Touch? && TouchHandled(p, e.touchscreen) && TouchCancels(e.touchPhase, e.touchscreen, e.points)
            ==> r.0 == End(m, t, TouchEndDelta(m, e.points))
    ensures e.Wheel? && WheelHandled(p, e.scrollPhase) && WheelCancels(e.scrollPhase, e.buttons)
            ==> r.0 == End(m, t, None)
    ensures e.MouseMove? ==>
              r.0 == if m.orientation.Some? && AbsInt(e.y - m.cursorTop) > p.dragDistance then End(m, t, None) else m
    ensures r.0.posted <= m.posted + 1 && r.0.haptics <= m.haptics + 1
  {
    match e
    case Leave =>
      (if m.orientation.Some? then End(m, t, None) else m, Continue)
    case MouseMove(y) =>
      (if m.orientation.Some? && AbsInt(y - m.cursorTop) > p.dragDistance then End(m, t, None) else m,
       Continue)
    case Touch(phase, touchscreen, points) =>
      if !TouchHandled(p, touchscreen) then (m, Continue)
      else if TouchCancels(phase, touchscreen, points) then (End(m, t, TouchEndDelta(m, points)), Cancel)
      else
        (Update(m, t, UpdateArgs(points[0].pos, m.startAt.Minus(points[0].pos), true), finishFor, q),
         Cancel)
    case Wheel(phase, buttons, scrollDelta) =>
      if !WheelHandled(p, phase) then (m, Continue)
      else if WheelCancels(phase, buttons) then (End(m, t, None), Continue)
      else (Update(m, t, UpdateArgs(Origin, m.delta.Minus(scrollDelta), false), finishFor, q), Continue)
    case Other =>
      (m, Continue)
  }

  /** A change of the scroll position ends the gesture. */
  function Scrolled(m: Machine, t: Threshold): (r: Machine)
    ensures r.orientation.None? && !r.started && !r.reached
    ensures r.posted == (if m.orientation == Some(Horizontal) && m.finish.hasCallback
                            && Ratio(m.delta, t) >= ReachedOn
                         then m.posted + 1 else m.posted)
    ensures m.orientation == Some(Horizontal) ==> r.endAnim == Running(Ratio(m.delta, t), 0.0)
  {
    End(m, t, None)
  }

  /** The reach animation's tick reports the current ratio again. */
  function ReachTick(m: Machine, t: Threshold, reach: real): (r: Machine)
    ensures r.painted == m.painted + [Paint(Ratio(m.delta, t), reach, t, m.finish.msgBareId, m.cursorTop)]
    ensures r.(painted := m.painted) == m
  {
    Report(m, t, Ratio(m.delta, t), reach)
  }
}
