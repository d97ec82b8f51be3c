# Swipe-to-reply gesture recogniser

This project models the gesture state machine behind swipe-to-reply in the
chat history view of Telegram Desktop (`SetupSwipeHandler` in
`Telegram/SourceFiles/history/history_view_swipe.cpp`). It proves
properties about that model. The handler watches the history widget's
mouse, touch and wheel events. It tells a horizontal swipe apart from a
vertical scroll, reports the swipe's progress to its host, and posts the
host's finish callback when a horizontal swipe ends beyond the threshold.

The model has four modules:

- `Geometry` (`geometry.dfy`): points with real coordinates, `Clamp`, and
  `Round` (round half away from zero).
- `Gesture` (`gesture.dfy`): the handler's state record plus the effects it
  has on its host, as one value, `Machine`. Each of the handler's
  transitions is a function on `Machine`: `Report`, `Paint` and
  `Translation` (the progress report), `SetOrientation`, `End`
  (processEnd, with its horizontal part `Release`), `Scrolled`,
  `ReachTick`, `Start`, `Classify`, `Track` (with the reach hysteresis
  `Reach`), `Update` (updateWith) and `Filter` (the event filter). The
  host effects are recorded instead of performed: the viewport's
  accept-touch attribute, the scroll area's scroll-disabled flag, a count
  of posted finish callbacks, a count of haptic pulses, the values each
  animation was last started with, and the log of progress reports.
- `Handler` (`handler.dfy`): the class `SwipeHandler`, whose fields are the
  state record and the recorded effects. Its methods update those fields
  in place, as the source's closures do. Each method is proved to move
  the object's `Snapshot()` exactly where the matching `Gesture` function
  moves the value. The steps `StartGesture`, `ClassifyGesture`,
  `TrackGesture`, `UpdateReached` and `ReleaseGesture` are branches of
  the update and end closures, proved one at a time.
- `GestureProperties` (`properties.dfy`): lemmas over several steps
  (updates, and runs of events, scroll changes and animation frames),
  independent characterisations of the touch predicate, and three
  end-to-end scenarios.

Points to know about the code, which the model follows:

- The displacement of a touch gesture is the start position minus the
  current position. A swipe to the LEFT therefore gives a positive ratio.
  The first scenario swipes from (0, 0) to (-60, 0).
- The update that classifies a gesture only stores the displacement.
  Progress is reported, and `reached` is set, from the next update on.
- A restart caused by a switch between touch and wheel input does not clear
  the orientation or `reached`. With a finish callback, the old
  classification carries over. Without one, a reached horizontal gesture
  becomes a vertical one that is still marked reached
  (`RestartKeepsReached`). So "reached only while horizontal" is not an
  invariant of this code. The invariant that does hold is `Consistent`:
  an idle handler is neither classified nor reached.
- The translation is rounded. Its exact bound is therefore
  `[-1.5·threshold - 1/2, 0]`, not `[-1.5·threshold, 0]`.

## Model

| member | source | states |
|---|---|---|
| `Geometry.Clamp` | Telegram/SourceFiles/history/history_view_swipe.cpp:49 | result lies in `[lo, hi]`; it is `v` inside the range, `lo` below it, `hi` above it |
| `Geometry.Round` | Telegram/SourceFiles/history/history_view_swipe.cpp:51-52 | the rounded integer is within 1/2 of the value and has the value's sign |
| `Gesture.Translation` | Telegram/SourceFiles/history/history_view_swipe.cpp:51-52 | the pixel shift is within 1/2 of `-clamp(ratio, 0, 1.5) * threshold`, so it lies in `[-1.5·threshold - 1/2, 0]` |
| `Gesture.Paint` | Telegram/SourceFiles/history/history_view_swipe.cpp:47-56 | the reported ratio is `clamp(ratio, 0, 1.5)` (unchanged inside, 0 below, 1.5 above); the translation bounds; the report carries the reach value, the target message id and the cursor row |
| `GestureProperties.TranslationMonotone` | Telegram/SourceFiles/history/history_view_swipe.cpp:47-56 | a larger ratio never gives a smaller pixel shift |
| `Gesture.Report` | Telegram/SourceFiles/history/history_view_swipe.cpp:47-56 | the report for the ratio is appended after the earlier ones and no other field changes |
| `Handler.SwipeHandler.UpdateRatio` | Telegram/SourceFiles/history/history_view_swipe.cpp:47-56 | appends the report for the ratio to the host's log and changes nothing else |
| `Gesture.SetOrientation` | Telegram/SourceFiles/history/history_view_swipe.cpp:57-64 | orientation becomes `o`; touch is accepted iff `o` is not Horizontal; scrolling is disabled iff it is; no other field changes |
| `Handler.SwipeHandler.SetOrientation` | Telegram/SourceFiles/history/history_view_swipe.cpp:57-64 | the same on the object, whose frame is only those three fields |
| `GestureProperties.RunFlagsAgree` | Telegram/SourceFiles/history/history_view_swipe.cpp:57-64 | once the two host flags agree with the orientation, they agree after any sequence of events, scroll changes and animation frames |
| `Gesture.End` | Telegram/SourceFiles/history/history_view_swipe.cpp:65-84 | the callback is posted (count + 1) iff the gesture was Horizontal, a callback exists, and (override or stored displacement).x / threshold ≥ 1; when Horizontal, the reach animation is stopped and the end animation starts from that ratio to 0; always: orientation unset, not started, not reached, touch accepted, scrolling enabled; displacement, start point, target, haptics and reports unchanged |
| `Handler.SwipeHandler.ProcessEnd` | Telegram/SourceFiles/history/history_view_swipe.cpp:65-84 | the object moves to `End` of its old state and is consistent afterwards |
| `Gesture.Release` | Telegram/SourceFiles/history/history_view_swipe.cpp:66-80 | ending a Horizontal gesture at a displacement posts (count + 1) iff a callback exists and the ratio is at least 1, stops the reach animation and starts the end animation from that ratio to 0; every other field is unchanged |
| `Handler.SwipeHandler.ReleaseGesture` | Telegram/SourceFiles/history/history_view_swipe.cpp:66-80 | the object moves to `Release` of its old state |
| `GestureProperties.PostOnlyOnHorizontalEnd` | Telegram/SourceFiles/history/history_view_swipe.cpp:65-84 | an event posts a callback only when it ends a Horizontal gesture that has a callback, through `End` with a final ratio of at least 1; it posts once and leaves the handler idle and unclassified, so the next post needs a new Horizontal gesture |
| `Gesture.Scrolled` | Telegram/SourceFiles/history/history_view_swipe.cpp:85-87 | a scroll-position change leaves the handler idle and unclassified; it posts iff the gesture was Horizontal with a callback and a stored ratio of at least 1, and then starts the end animation from that ratio |
| `Handler.SwipeHandler.OnScroll` | Telegram/SourceFiles/history/history_view_swipe.cpp:85-87 | the object moves to `Scrolled` of its old state and is consistent afterwards |
| `Gesture.ReachTick` | Telegram/SourceFiles/history/history_view_swipe.cpp:88-90 | a reach-animation tick appends the report for the stored displacement's ratio, with the tick's reach value, and changes nothing else |
| `Handler.SwipeHandler.ReachAnimationTick` | Telegram/SourceFiles/history/history_view_swipe.cpp:88-90 | the object moves to `ReachTick` of its old state |
| `Gesture.Start` | Telegram/SourceFiles/history/history_view_swipe.cpp:97-108 | a fresh start sets `started`, the touch mode, `startAt` and the cursor row, zeroes the displacement and looks up the finish target; orientation becomes Vertical iff there is no callback and is otherwise kept; a start never produces Horizontal; reached, posts, haptics, animations and reports are unchanged |
| `Handler.SwipeHandler.StartGesture` | Telegram/SourceFiles/history/history_view_swipe.cpp:97-108 | the object moves to `Start` of its old state |
| `GestureProperties.RestartKeepsReached` | Telegram/SourceFiles/history/history_view_swipe.cpp:97-108 | a restart through a touch/wheel switch keeps `reached`; it keeps the orientation when a callback exists and makes it Vertical when none does |
| `Gesture.Classification` | Telegram/SourceFiles/history/history_view_swipe.cpp:111-120 | Horizontal iff \|dx\| − \|dy\| > 1; Vertical iff it is < −1; unset iff it lies in [−1, 1] |
| `Gesture.Classify` | Telegram/SourceFiles/history/history_view_swipe.cpp:109-120 | an undecided update stores the displacement and sets the orientation to its classification, with the host flags set to match it (touch accepted unless Horizontal, scrolling disabled iff Horizontal); every other field is unchanged |
| `Handler.SwipeHandler.ClassifyGesture` | Telegram/SourceFiles/history/history_view_swipe.cpp:109-120 | the object moves to `Classify` of its old state |
| `GestureProperties.NoHorizontalWithinMargin` | Telegram/SourceFiles/history/history_view_swipe.cpp:109-120 | a gesture that is not Horizontal never becomes Horizontal over updates whose \|dx\| − \|dy\| stays ≤ 1 |
| `Gesture.Track` | Telegram/SourceFiles/history/history_view_swipe.cpp:121-139 | while Horizontal: the new `reached` is `ratio ≥ 0.95` if it was reached and `ratio ≥ 1` if not; a haptic pulse and the reach animation (0 → 1) happen exactly on the false → true flip; the report for the ratio is appended; orientation, flags and posts are unchanged |
| `Handler.SwipeHandler.TrackGesture` | Telegram/SourceFiles/history/history_view_swipe.cpp:121-139 | the object moves to `Track` of its old state |
| `Gesture.Reach` | Telegram/SourceFiles/history/history_view_swipe.cpp:127-139 | the reached flag becomes `ratio ≥ 0.95` if it was set and `ratio ≥ 1` if not; a haptic pulse and the reach animation (0 → 1) happen exactly when it turns on; every other field is unchanged |
| `Handler.SwipeHandler.UpdateReached` | Telegram/SourceFiles/history/history_view_swipe.cpp:127-139 | the object moves to `Reach` of its old state |
| `GestureProperties.HapticOncePerCrossing` | Telegram/SourceFiles/history/history_view_swipe.cpp:121-139 | over Horizontal updates that never drop below 0.95, `reached` ends true iff it started true or some ratio reached 1, and haptics grow by exactly one iff it started false and some ratio reached 1 |
| `Gesture.Update` | Telegram/SourceFiles/history/history_view_swipe.cpp:96-141 | every update leaves the gesture started in the update's touch mode; on a started gesture in the same mode, a set orientation never changes; an update yields Horizontal only if it already was, or if an undecided same-mode update has \|dx\| − \|dy\| > 1; updates never post |
| `Handler.SwipeHandler.UpdateWith` | Telegram/SourceFiles/history/history_view_swipe.cpp:96-141 | the object moves to `Update` of its old state and stays consistent |
| `GestureProperties.OrientationLocked` | Telegram/SourceFiles/history/history_view_swipe.cpp:109-140 | after any sequence of same-mode updates, a classified started gesture keeps its orientation, stays started and keeps its mode |
| `Gesture.Filter` | Telegram/SourceFiles/history/history_view_swipe.cpp:142-215 | the filter answers Cancel iff the event is a handled touch event; ignored events (other kinds, Leave while unclassified, unhandled touch or wheel) change nothing; cancelling events end the gesture through `End`: Leave while classified and a cancelling wheel event with no override, a cancelling touch event with `startAt −` its first point as override (none when it has no points), so they leave the handler idle; a mouse move ends a classified gesture iff it drifts vertically more than the drag distance from the cursor row |
| `Handler.SwipeHandler.Filter` | Telegram/SourceFiles/history/history_view_swipe.cpp:142-215 | the object and the answer are those of `Filter` on its old state |
| `Gesture.TouchHandled` | Telegram/SourceFiles/history/history_view_swipe.cpp:164-168 | on macOS every touch event is handled; elsewhere exactly the touchscreen ones |
| `Gesture.TouchCancels` | Telegram/SourceFiles/history/history_view_swipe.cpp:169-180 | an end or cancel always cancels; an event that does not cancel has 1–2 points, exactly 1 on a touchscreen, and its first point is not released |
| `GestureProperties.TouchProceedsIff` | Telegram/SourceFiles/history/history_view_swipe.cpp:169-180 | a touch event does not cancel iff it is a begin or an update, has exactly 1 point (touchscreen) or 1–2 points (otherwise), and none of its points is released |
| `GestureProperties.TouchUpdateDelta` | Telegram/SourceFiles/history/history_view_swipe.cpp:181-192 | a handled, non-cancelling touch event has a first point, answers Cancel and leaves a started touch gesture; with no touch gesture under way the new one starts at that point with a null displacement; an undecided or Horizontal touch gesture keeps its start and stores `startAt − point`; a Vertical one is left as it was |
| `Gesture.WheelHandled` | Telegram/SourceFiles/history/history_view_swipe.cpp:197-199 | on macOS no wheel event is handled; elsewhere exactly those with a scroll phase |
| `Gesture.WheelCancels` | Telegram/SourceFiles/history/history_view_swipe.cpp:200-202 | a wheel event with a phase goes on iff no button is pressed and the phase is a begin or an update |
| `GestureProperties.WheelAccumulates` | Telegram/SourceFiles/history/history_view_swipe.cpp:194-212 | a handled, non-cancelling wheel event on an undecided or Horizontal wheel gesture sets the displacement to `delta − scrollDelta` and answers Continue |
| `GestureProperties.RunConsistent` | Telegram/SourceFiles/history/history_view_swipe.cpp:65-141 | after any sequence of events, scroll changes and animation frames, an idle handler is unclassified and not reached |
| `GestureProperties.StepSilent` | Telegram/SourceFiles/history/history_view_swipe.cpp:65-141 | one input to a handler that is not Horizontal posts nothing, fires no pulse and starts or stops no animation; it reports nothing unless an animation is running |
| `GestureProperties.NeverHorizontalIsSilent` | Telegram/SourceFiles/history/history_view_swipe.cpp:65-141 | along a sequence of inputs on which the gesture is never Horizontal, nothing is posted, no haptic pulse fires and no animation is started or stopped; from a handler with no animation running, no progress is reported either |
| `Gesture.Initial` | Telegram/SourceFiles/history/history_view_swipe.cpp:31-46 | a fresh record is unclassified, not started, not reached, with no posts, pulses or reports |
| `Handler.SwipeHandler.constructor` | Telegram/SourceFiles/history/history_view_swipe.cpp:31-46 | the new object's snapshot is the fresh record and it is consistent |
| `GestureProperties.ScenarioSwipeToReply` | Telegram/SourceFiles/history/history_view_swipe.cpp:96-192 | touchscreen, threshold 50, with a callback: down at (0,0), move to (−60,0) twice, release at (−65,0). Horizontal after the first move; reached with one pulse at ratio 1.2 after the second; one post, and the end animation starts from 1.3 |
| `GestureProperties.ScenarioVerticalScroll` | Telegram/SourceFiles/history/history_view_swipe.cpp:96-192 | down at (0,0), move to (0,40): Vertical with scrolling enabled; the release posts nothing, pulses nothing, reports nothing and starts no animation |
| `GestureProperties.ScenarioLeaveBeforeThreshold` | Telegram/SourceFiles/history/history_view_swipe.cpp:142-192 | a Horizontal gesture at ratio 0.5 that leaves the widget posts nothing; the end animation starts from 0.5 |

## Left out

- Qt event objects, installing the event filter and its lifetime are not modelled. Events are abstract `Event` values. The filter's answer is the `FilterResult` enum.
- Foreign queries are parameters. The cursor row (`QCursor::pos` mapped into the widget) and the reach animation's current value come in a `Query`. `Platform::IsMac` and `QApplication::startDragDistance` come in a `Platform`. The touch device type is the event's `touchscreen` flag. `Ui::ScrollDelta` of a wheel event is the event's `scrollDelta`.
- Animation timing and interpolation are not modelled. Each animation is recorded only as `Idle` or `Running(from, to)`, and an animation never finishes on its own. In a run (`GestureProperties.Run`), a frame of either animation is an input that reports progress while that animation is `Running`. The frame's interpolated values are free parameters. A restart into Vertical does not stop the reach animation, so its frames go on reporting progress.
- Haptic feedback and `Ui::PostponeCall` are counted, not performed. The posted callback's own effect is outside the model.
- The host's `update` callback is modelled as a log of the reports it receives. What the host draws is not modelled.
- The `rpl` scroll subscription is reduced to `OnScroll` (`Scrolled`; `ScrollChange` in a run), which ends the gesture.
- The finish-target lookup `generateFinishByTop` is a fixed pure function `finishFor`, given when the handler is installed. The host's real answer for a row depends on what the history shows at that moment. The model therefore does not capture a row's target changing between two gestures.
- `float64` is modelled as `real`, with no NaN, infinities or rounding error. `style::ConvertFloatScale` is reduced to a positive `Threshold`. `base::SafeRound` is modelled as round half away from zero, without its NaN guard.
- The message id (`msgBareId`, a 64-bit integer) is an unbounded `int`. The finish callback is reduced to whether it exists.
- Of a touch point's state, only the released bit is modelled.
- Gesture.Translation: the lower bound is `-1.5·threshold - 1/2` rather than `-1.5·threshold`, because the shift is rounded to whole pixels.
