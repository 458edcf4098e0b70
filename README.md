# Countdown dial timer, verified model

A Dafny model of the logic inside `script.js`, a browser countdown timer drawn as a
circular dial where one revolution is one hour. The user drags on the dial to set a
duration. A click starts or pauses the countdown, and a double-click asks for a
number of minutes. A pie-slice "wedge" shows the time remaining.

The model has four modules, one per component of the widget:

- `Snapping` (snapping.dfy) is the snap resolver. It maps the raw seconds value under
  the pointer to whole minutes in fine mode, or to five-minute marks in default mode.
  Default mode also pulls values near 25 or 50 minutes onto those marks, and the full
  turn (3600) is shown as 0. JavaScript's `Math.round(v)` is `Floor(v + 0.5)` over reals.
- `Wedge` (wedge.dfy) covers the decisions `drawWedge` makes. It draws an empty path
  for a time of 0 or less. It clamps the time to 3599.99 so the arc never closes on
  itself, and it sets the SVG large-arc flag. The flag is checked against the
  elliptical arc command of SVG 1.1, section 8.3.8.
- `Countdown` (countdown.dfy) states the timer state machine on values:
  `setTime`, `startTimer`, `tick`, `pauseTimer` and `endTimer`, plus repeated firings
  of the one-second interval. The lemmas cover the invariant, the countdown running
  out exactly once, and a stopped timer ignoring ticks.
- `Widget` (widget.dfy) has the class `Timer`. It holds the variables the source's
  event handlers share (`totalTime`, `timeRemaining`, `isRunning`, the interval,
  `isDragging`, `didDrag`, `dragMode`) and the wedge currently drawn. Each method
  updates them in place. `SetTime`, `StartTimer`, `Tick`, `PauseTimer` and `EndTimer`
  are proved to produce `Countdown.SetTime`, `Start`, `Tick`, `Pause` and `End` of
  the old state. The `On*` handlers state their new state as a composition of those
  functions (for example `SetTime(Pause(old state), Snap(...))`) together with the
  drag flags. `Valid()` also says that the wedge on screen is always the one for
  `timeRemaining`.

Outside collaborators become plain values:

- `setInterval`/`clearInterval` is the flag `intervalActive`.
- The completion `alert` is the ghost counter `finishSignals`.
- A pointer event is the raw seconds value its angle gives.
- The prompt's answer is a `PromptReply`: cancelled, or the typed text as JavaScript's
  `Number` reads it (`NaN` or a number).

Properties of the code worth knowing:

- `onDragStart` leaves `dragMode` as it is (script.js:125-132). Only `onDragEnd`
  resets it (script.js:141-144).
- The priority snap (script.js:220-224) never changes the result. Each attraction
  zone (strictly within 120 s of 1500 or 3000) lies inside the range that the
  five-minute rounding already sends to that mark (within 150 s).
  `Snapping.MagnetsNeverDecide` proves this.
- The prompt text says 1-60 (script.js:164), but the check at script.js:165 accepts
  any number from 0 to 60, and script.js:166 truncates it to whole minutes.
- "Time is left whenever the timer runs" (`Countdown.RunningHasTimeLeft`) is
  established by `tick`, `pauseTimer` and `endTimer` and kept by `startTimer`.
  `setTime` breaks it when it sets 0 or less on a running timer
  (`Countdown.TimeLeftWhileRunning`). The model lets the handlers run in any order,
  so `onDragStart`, then `onClick` (starting the timer), then `onDragMove` to the top
  of the dial reaches that state, and the next tick ends it with an alert. This order
  is probably not reachable from real browser events: the mouseup before every click
  on the dial bubbles to the SVG element and runs `onDragEnd` first (script.js:29,
  36). So `Countdown.Inv` only requires `0 <= timeRemaining <= totalTime <= 3600`
  and "running iff the interval is scheduled".

## Model

| member | source | states |
|---|---|---|
| `Snapping.Round` | script.js:215-218 | `Math.round` yields the integer nearest its argument, with halves rounded up |
| `Snapping.Quantize` | script.js:215-218 | rounding to a step of 60 or 300 yields a multiple of the step within half a step of the raw value |
| `Snapping.Snap` | script.js:212-228 | the snapped value is never 3600; fine mode yields a multiple of 60 and default mode a multiple of 300; in default mode a raw value strictly within 120 of 1500 yields 1500, else one strictly within 120 of 3000 yields 3000 |
| `Snapping.SnapStaysOnDial` | script.js:205-228 | a raw value from an angle in [0, 360), i.e. in [0, 3600), snaps into [0, 3600) |
| `Snapping.SnapIsNearestMark` | script.js:213-228 | the snapped value is within half a step of the raw value, or is 0 standing for a full turn within half a step |
| `Snapping.MagnetsNeverDecide` | script.js:216-225 | in default mode the priority snap never changes the outcome: the result is plain rounding to 300 with 3600 mapped to 0 |
| `Wedge.PathFor` | script.js:90-110 | the path is empty iff seconds <= 0; otherwise the drawn time is positive, below 3600, equal to the input up to 3599.99 and exactly 3599.99 above it, and the large-arc flag is 1 iff seconds > 1800 (0 otherwise) |
| `Wedge.LargeArcFollowsSweep` | script.js:97-110 | for a positive time the slice sweeps strictly between 0 and 360 degrees, and the large-arc flag is 1 exactly when the sweep exceeds 180 degrees, as SVG 1.1 section 8.3.8 requires |
| `Countdown.Clamp` | script.js:241 | the result lies in [0, 3600], equals an in-range input, and is 0 below the range and 3600 above it |
| `Countdown.SetTime` | script.js:240-245 | both times become the clamped input; running state, interval and alerts are unchanged |
| `Countdown.Pause` | script.js:268-271 | the timer is stopped and the interval cleared; times and alerts are unchanged |
| `Countdown.End` | script.js:273-280 | stopped, interval cleared, no time remaining, total unchanged, exactly one more alert |
| `Countdown.Tick` | script.js:257-266 | no change when stopped; when running with more than one second left, exactly one second goes; otherwise the timer ends (as `End`); a running result always has time left |
| `Countdown.Start` | script.js:247-255 | no change when running or with no time left; otherwise it runs with the interval scheduled and one second already gone, or ends at once with one alert if one second was left |
| `Countdown.InvPreserved` | script.js:240-280 | every transition keeps 0 <= remaining <= total <= 3600 and running iff the interval is scheduled |
| `Countdown.TimeLeftWhileRunning` | script.js:240-280 | after `tick`, `pauseTimer` or `endTimer` a running timer has time left; `startTimer` keeps that; `setTime` keeps it unless it sets 0 or less while running, where it breaks it |
| `Countdown.PauseIdempotent` | script.js:268-271 | pausing a paused timer changes nothing |
| `Countdown.CountdownRuns` | script.js:253-266 | while seconds remain, k firings of the interval take exactly k seconds and change nothing else |
| `Countdown.CountdownEndsOnce` | script.js:257-280 | a running timer with n seconds left ends after exactly n firings, at zero, with exactly one alert |
| `Countdown.StoppedIgnoresTicks` | script.js:257-258 | any number of firings leave a stopped (paused or finished) timer unchanged |
| `Countdown.SetStartRunsOut` | script.js:240-280 | setting d seconds and starting ends after d - 1 further firings with total d, nothing remaining and one alert; later firings change nothing |
| `Widget.Truncate` | script.js:166 | `parseInt` of a number is its integer part, truncated toward zero |
| `Widget.PromptMinutes` | script.js:164-166 | a reply is accepted iff it is present, a number and within [0, 60]; the minutes are then its integer part, in [0, 60] |
| `Widget.PromptNeedsNoClamp` | script.js:165-166 | an accepted reply sets both times to exactly its minutes times 60, with no clamping |
| `Widget.Timer.constructor` | script.js:3-9 | the variables start as declared, and `init`'s `setTime(25 * 60)` (script.js:39-40) leaves 1500 seconds, stopped, not dragging, default mode |
| `Widget.Timer.DrawWedge` | script.js:90-121 | the wedge drawn is `Wedge.PathFor` of the given time |
| `Widget.Timer.SetTime` | script.js:240-245 | the new state is `Countdown.SetTime` of the old one, and the wedge shows the new time |
| `Widget.Timer.StartTimer` | script.js:247-255 | the new state is `Countdown.Start` of the old one |
| `Widget.Timer.Tick` | script.js:257-266 | the new state is `Countdown.Tick` of the old one |
| `Widget.Timer.PauseTimer` | script.js:268-271 | the new state is `Countdown.Pause` of the old one; it keeps the invariant |
| `Widget.Timer.EndTimer` | script.js:273-280 | from any state with a total on the dial (remaining time may be below zero), the new state is `Countdown.End` of the old one and valid |
| `Widget.Timer.UpdateTimerFromEvent` | script.js:210-231 | the timer is set to the snapped raw value in the current drag mode |
| `Widget.Timer.OnDragStart` | script.js:125-132 | pauses, starts a drag that has not moved, keeps the drag mode, and sets the time to the snapped pointer value |
| `Widget.Timer.OnDragMove` | script.js:134-139 | changes nothing unless dragging; otherwise marks the drag as moved and sets the time to the snapped pointer value |
| `Widget.Timer.OnDragEnd` | script.js:141-144 | the drag ends and the mode is back to default; the timer is untouched |
| `Widget.Timer.OnClick` | script.js:146-159 | after a moved drag it only clears the flag; otherwise it pauses a running timer and starts a stopped one |
| `Widget.Timer.OnDoubleClick` | script.js:161-168 | always pauses; an accepted reply of m minutes then sets 60 * m seconds, any other reply leaves both times unchanged |

## Left out

- `drawClockFace` (script.js:48-83): a one-time loop that creates tick marks and labels with `Math.cos`/`Math.sin`. It involves no state.
- The wedge's arc end point and path text (script.js:103-107, 117): floating-point trigonometry and number-to-text formatting. Only the empty-path decision, the clamp and the large-arc flag are modelled.
- `getCoords` and the `Math.atan2` angle (script.js:173-207): these depend on the page layout and on trigonometry. Snapping starts from the raw seconds value.
- `setInterval`/`clearInterval`, the unused `Date.now()`, `alert`, `prompt`, `preventDefault` and the listener wiring in `init` (script.js:23-41): browser plumbing. They become the `intervalActive` flag, the ghost `finishSignals` counter and the `PromptReply` input. The model does not capture timing, so the interval firing is an explicit call to `Tick`.
- The prompt's suggested default `Math.round(totalTime / 60)` (script.js:163): the model takes the reply as an input, so the suggestion has no effect.
- The text conversions behind the prompt are not modelled. The reply is the value `Number(text)` gives, and `parseInt(text)` is assumed to truncate that value. This is wrong for some texts. An empty or blank text is read as 0 by `Number`, so script.js:165 accepts it, but `parseInt` returns `NaN`, which `setTime` would store in both times (script.js:241-243). `"1e1"` is accepted as 10 but sets 1 minute, and `".5"` is accepted but gives `NaN` too.
- Fine drag mode is never entered: the long-press rule is not implemented (script.js:130). `dragMode` is a field that only the constructor and `OnDragEnd` set.
- Arithmetic is over `real` and `int`, not IEEE doubles. Rounding errors in `seconds / 60` and similar expressions are not modelled.
- Snapping.Quantize: stated only for the two steps the source uses (60 and 300), not for an arbitrary step.
