# Keyboard cursor controller

A model of kbrd-cursor, a browser script that draws a small round indicator
on the page and drives it from the keyboard. The arrow keys move it by a step
that depends on a speed index into the step table `[10, 20, 40, 100]`. Quick
presses along the remembered direction of an axis raise the speed by one.
Quick presses that switch direction lower it by two. A timer resets the speed
300 ms after the last quick press. Each move clamps the position to the
viewport. The fill is the slow tint exactly at speed 0. A click enlarges the
indicator for 100 ms (in `script.ts`, only when an element lies under it).

The repository holds two variants, and each is modelled as its own
transition system:

- `cursor.dfy` (module `Cursor`) models the evolved variant, `src/cursor.ts`.
  - Alt+M shows or hides the indicator, and while it is hidden every other key is ignored.
  - Left-Shift drops the speed to 0.
  - Alt+Enter clicks the element under the indicator.
  - Alt+ArrowUp and Alt+ArrowDown scroll the page by 200 px.
- `script.dfy` (module `Script`) models the base variant, `script.ts`.
  - Holding Shift forces speed 0.
  - Enter clicks and then runs the speed and movement path with no direction.
    That path stores `undefined` as the remembered vertical direction.
- `cursor_common.dfy` (module `CursorCommon`) holds what the two share: the constants,
  the arrow-key table, the clamp, the two speed rules, and the events and
  browser answers.

Each variant is written twice:

- As values. `State` collects the module-level variables. The functions
  `Dispatch`, `SpeedReset`, `SizeRestore` and `Activate`, defined on
  consistent states, are the transitions, and `Run` folds a sequence of
  events.
  - `Consistent` is the invariant of every reachable state:
    - the speed is in [0, 3];
    - the fill is slow exactly at speed 0;
    - an enlarged indicator has a restore pending;
    - before `mouse()` nothing has happened.

  The lemmas state the behaviour of each key.
- As the code writes it. `Controller` is a class whose fields are the
  module-level variables and whose methods are the script's functions,
  updating those fields step by step. Each method's postcondition ties its
  new state, and any requested effect, to the value-level transition.

Timers become explicit events:

- A scheduled speed reset is a flag that a quick move sets (in `script.ts`,
  a quick move without Shift) and a `SpeedTimerFires` event consumes. Every move clears it (in `script.ts`,
  every arrow press and every Enter that found an element); the other keys
  leave it as it is.
- Size restores are a counter of scheduled timeouts.

The browser's answers for one event are an `Env` value:

- the viewport size;
- whether the `.mouse-cursor` element is in the document;
- whether an element lies under the indicator.

The click and the scroll are recorded as an `Effect`.

In both variants four quick Right presses from (100, 100) give x = 110, 130,
170, 270 at speeds 0, 1, 2, 3, because each press moves at the speed it has
just set (`FourRightPresses` in both modules).

## Model

| member | source | states |
|---|---|---|
| `CursorCommon.KeyToDirection` | src/cursor.ts:16-21 | the arrow-key table: it yields a direction exactly for the four arrow keys, and that direction's key is the input |
| `CursorCommon.DirectionKeyRoundTrip` | script.ts:10-15 | looking up the key of any direction gives that direction back |
| `CursorCommon.IsHorizontal` | src/cursor.ts:115 | `isDirectionX`: a direction is along the x axis exactly when it is not Up or Down |
| `CursorCommon.Displacement` | src/cursor.ts:155-168 | one step changes only the axis of the direction, by +step for right/down and -step for left/up |
| `CursorCommon.Clamp` | src/cursor.ts:170-173 | the result lies in [0, edge]; it is the input when the input is in range, 0 below and the edge above |
| `CursorCommon.Faster` | src/cursor.ts:123 | a speed in range stays in range; below the top it rises by exactly 1, otherwise it is the top speed 3 |
| `CursorCommon.Slower` | src/cursor.ts:122 | a speed in range stays in range; it falls by exactly 2, but not below 0 |
| `CursorCommon.ColorFor` | src/cursor.ts:148 | the slow tint is chosen exactly for speed 0 |
| `Cursor.Start` | src/cursor.ts:22-31 | the load-time state is consistent: not started, speed 0, slow fill |
| `Cursor.Activate` | src/cursor.ts:35-59 | `mouse()` only marks the controller started, and only when a document exists and it has not run yet; consistency is kept |
| `Cursor.WithSpeed` | src/cursor.ts:145-149 | an in-range speed is stored with the fill slow exactly at 0; an out-of-range one changes nothing; nothing else changes |
| `Cursor.Toggle` | src/cursor.ts:84-92 | visibility flips and nothing else changes |
| `Cursor.Click` | src/cursor.ts:94-107 | size becomes big with one more restore scheduled, nothing else changes, and a click is requested exactly when an element lies under the indicator |
| `Cursor.ScrollRequest` | src/cursor.ts:136-143 | the scroll is 200 px, upwards (negative) exactly for Up |
| `Cursor.Translate` | src/cursor.ts:151-177 | without the indicator in the document nothing changes; otherwise only the position changes and it ends inside the viewport |
| `Cursor.Ramp` | src/cursor.ts:110-127 | the ramped speed stays in [0, 3] and a started state stays consistent |
| `Cursor.Switched` | src/cursor.ts:116-118 | `switchedDirection`: a move is switched exactly when its axis remembers no direction (`null`) or a different one; in particular the first move along an axis is switched |
| `Cursor.Remember` | src/cursor.ts:131-133 | the axis of the move remembers its direction (so a repeat is not switched), the other axis keeps its memory, the time becomes `now`, and nothing else changes |
| `Cursor.Move` | src/cursor.ts:109-134 | a move keeps a started state consistent |
| `Cursor.Dispatch` | src/cursor.ts:41-56 | the listener keeps every state consistent and does nothing before `mouse()` has run |
| `Cursor.SpeedReset` | src/cursor.ts:126 | the firing reset timer sets speed 0 with the slow fill and is consumed; with none scheduled nothing changes |
| `Cursor.SizeRestore` | src/cursor.ts:106 | a firing restore sets normal size and is consumed; with none scheduled nothing changes |
| `Cursor.Run` | src/cursor.ts:41-56 | every state reachable by any sequence of events is consistent: speed in [0, 3], slow fill exactly at speed 0 |
| `Cursor.Restores` | src/cursor.ts:106 | consistency is kept, and `n` firings consume `n` scheduled restores (down to none) |
| `Cursor.TranslateMovesOneStep` | src/cursor.ts:151-177 | with the indicator present the moved axis changes by the step of the current speed before clamping, an in-range coordinate on the other axis stays put, and nothing but the position changes |
| `Cursor.MoveRampsSpeed` | src/cursor.ts:110-127 | a quick move raises the speed by 1 (capped at 3), or lowers it by 2 (floored at 0) when switched, and leaves a reset pending; a slow move keeps the speed and cancels the pending reset |
| `Cursor.MovePosition` | src/cursor.ts:129 | without the indicator the position is untouched; otherwise the moved axis changes by the step of the already ramped speed and both coordinates are clamped |
| `Cursor.MoveRemembers` | src/cursor.ts:131-133 | after a move its axis remembers its direction, the other axis keeps its memory, the time is `now`, and visibility and size are untouched |
| `Cursor.ActivateIdempotent` | src/cursor.ts:37 | calling `mouse()` again after it has run changes nothing |
| `Cursor.HiddenIgnoresKeys` | src/cursor.ts:42-43 | while hidden, every key other than Alt+M changes nothing and requests nothing |
| `Cursor.ToggleTwiceRestores` | src/cursor.ts:42 | Alt+M flips only visibility, and pressing it twice restores the whole state |
| `Cursor.ResetKeyDropsSpeed` | src/cursor.ts:45-49 | Left-Shift sets speed 0 with the slow fill and keeps a pending reset pending |
| `Cursor.AltArrowScrolls` | src/cursor.ts:51-52 | Alt+ArrowUp and Alt+ArrowDown change no state and request a scroll of -200 or +200 |
| `Cursor.AltEnterClicks` | src/cursor.ts:50 | Alt+Enter keeps position, speed, memory, time and the reset timer, enlarges the indicator with one more restore, and clicks exactly when an element lies under it |
| `Cursor.ArrowKeyMoves` | src/cursor.ts:54-55 | an arrow key without Alt bindings or Left-Shift is exactly a move in its direction |
| `Cursor.OtherAxisKeepsSwitch` | src/cursor.ts:115-118 | a move along one axis does not change whether a move along the other axis counts as switched |
| `Cursor.StepStaysInView` | src/cursor.ts:170-173 | no single event moves an indicator inside the viewport it sees out of it |
| `Cursor.RunStaysInView` | src/cursor.ts:151-177 | while every key press sees the same viewport size, an indicator inside it stays inside it under any sequence of events |
| `Cursor.ReachableInView` | src/cursor.ts:30-31 | starting at (100, 100) in a viewport of at least 100 x 100 px that keeps its size, the indicator is inside the viewport after any sequence of events |
| `Cursor.SpeedResetIdempotent` | src/cursor.ts:126 | a second firing of the reset timer changes nothing |
| `Cursor.RestoresLeaveNormal` | src/cursor.ts:105-106 | once a scheduled restore has fired, the indicator is at normal size however many more fire |
| `Cursor.RestoresStayNormal` | src/cursor.ts:185-190 | a normal-size indicator stays normal under any number of restores |
| `Cursor.AllRestoresLeaveNormal` | src/cursor.ts:105-106 | once all scheduled restores have fired the indicator is at normal size with none pending |
| `Cursor.FourRightPresses` | src/cursor.ts:109-134 | after showing the indicator, four quick Right presses from (100, 100) give x = 110, 130, 170, 270 at speeds 0, 1, 2, 3 |
| `Cursor.Controller.constructor` | src/cursor.ts:22-31 | the fields start as the load-time state |
| `Cursor.Controller.Mouse` | src/cursor.ts:35-59 | the update is `Activate` and keeps the invariant |
| `Cursor.Controller.OnKeyDown` | src/cursor.ts:41-56 | the new fields and the requested effect are those of `Dispatch`, and the invariant is kept |
| `Cursor.Controller.ToggleCursorVisibility` | src/cursor.ts:84-92 | the update is `Toggle` |
| `Cursor.Controller.HandleClick` | src/cursor.ts:94-107 | the update and the effect are those of `Click` |
| `Cursor.Controller.HandleMove` | src/cursor.ts:109-134 | the update is `Move` |
| `Cursor.Controller.RampSpeed` | src/cursor.ts:110-127 | the update is `Ramp`, and the speed ends in [0, 3] |
| `Cursor.Controller.HandleScroll` | src/cursor.ts:136-143 | no field changes and the effect is `ScrollRequest` |
| `Cursor.Controller.SetCursorSpeed` | src/cursor.ts:145-149 | the update is `WithSpeed` |
| `Cursor.Controller.MoveCursor` | src/cursor.ts:151-177 | the update is `Translate` |
| `Cursor.Controller.SetCursorColor` | src/cursor.ts:179-183 | only the fill changes |
| `Cursor.Controller.SetCursorSize` | src/cursor.ts:185-190 | only the size changes |
| `Cursor.Controller.OnSpeedResetTimeout` | src/cursor.ts:126 | the update is `SpeedReset` and keeps the invariant |
| `Cursor.Controller.OnSizeRestoreTimeout` | src/cursor.ts:106 | the update is `SizeRestore` and keeps the invariant |
| `Script.Start` | script.ts:16-24 | the load-time state is consistent: not started, speed 0, slow fill, both directions `null` |
| `Script.Activate` | script.ts:26-81 | `mouse()` only marks the controller started, and only when a document exists and it has not run yet; consistency is kept |
| `Script.WithSpeed` | script.ts:104-108 | an in-range speed is stored with the fill slow exactly at 0; an out-of-range one changes nothing; nothing else changes |
| `Script.Recall` | script.ts:75-76 | a stored direction is never `null`; an arrow press stores its own direction, and the value is `undefined` exactly when there is no direction (Enter) |
| `Script.IsDirectionX` | script.ts:54 | `isDirectionX` holds exactly for a direction along the x axis, so it is false for Enter |
| `Script.Switched` | script.ts:57-59 | `switchedDirection`: an event whose axis still holds `null` is switched; Enter is switched exactly when `lastDirectionY` is not `undefined`; an arrow is switched exactly when its axis does not hold its direction |
| `Script.Remember` | script.ts:75-77 | the axis of the event stores `direction` (`undefined` for Enter, so a repeat is not switched), the other axis keeps its memory, the time becomes `now`, and nothing else changes |
| `Script.Ramp` | script.ts:52-71 | the ramped speed stays in [0, 3] and a started state stays consistent |
| `Script.Translate` | script.ts:110-136 | without the indicator in the document nothing changes; otherwise only the position changes and it ends inside the viewport |
| `Script.Advance` | script.ts:52-77 | the speed and movement path keeps a started state consistent |
| `Script.Enlarge` | script.ts:45-49 | size becomes big with one more restore scheduled and nothing else changes |
| `Script.Dispatch` | script.ts:31-78 | the listener keeps every state consistent and does nothing before `mouse()` has run |
| `Script.SpeedReset` | script.ts:70 | the firing reset timer sets speed 0 with the slow fill and is consumed; with none scheduled nothing changes |
| `Script.SizeRestore` | script.ts:47-49 | a firing restore sets normal size and is consumed; with none scheduled nothing changes |
| `Script.Run` | script.ts:31-78 | every state reachable by any sequence of events is consistent: speed in [0, 3], slow fill exactly at speed 0 |
| `Script.Restores` | script.ts:47-49 | consistency is kept, and `n` firings consume `n` scheduled restores (down to none) |
| `Script.ActivateIdempotent` | script.ts:27 | calling `mouse()` again after it has run changes nothing |
| `Script.IgnoresOtherKeys` | script.ts:32-35 | a key that is neither an arrow key nor Enter changes nothing and requests nothing |
| `Script.ArrowKeyAdvances` | script.ts:32-35 | an arrow key runs the speed and movement path in its direction |
| `Script.EnterClicks` | script.ts:37-50 | Enter with no element under the indicator changes nothing; otherwise it clicks, enlarges the indicator, adds no offset (the position is only clamped), sets the vertical memory to `undefined`, keeps the horizontal one and records the time |
| `Script.ShiftForcesSlowest` | script.ts:52-62 | with Shift the speed becomes 0 and no reset is left pending |
| `Script.AdvanceRampsSpeed` | script.ts:56-71 | without Shift a quick event raises the speed by 1 (capped at 3), or lowers it by 2 (floored at 0) when switched, and leaves a reset pending; a slow one keeps the speed with nothing pending |
| `Script.TranslateMovesOneStep` | script.ts:114-132 | with the indicator present the axis of the direction changes by the step of the current speed (nothing without a direction) before clamping, and nothing but the position changes |
| `Script.AdvancePosition` | script.ts:73 | without the indicator the position is untouched; otherwise it moves by the step of the already ramped speed and both coordinates are clamped to the viewport |
| `Script.AdvanceRemembers` | script.ts:75-77 | the axis of the event remembers its direction (`undefined` for Enter), the other axis keeps its memory, the time is `now`, and the size is untouched |
| `Script.SecondEnterAccelerates` | script.ts:54-67 | the first Enter counts as switched (`undefined` against `null`) and stores `undefined`, so a second quick Enter is not switched and raises the speed |
| `Script.StepStaysInView` | script.ts:129-132 | no single event moves an indicator inside the viewport it sees out of it |
| `Script.RunStaysInView` | script.ts:110-136 | while every key press sees the same viewport size, an indicator inside it stays inside it under any sequence of events |
| `Script.ReachableInView` | script.ts:23-24 | starting at (100, 100) in a viewport of at least 100 x 100 px that keeps its size, the indicator is inside the viewport after any sequence of events |
| `Script.SpeedResetIdempotent` | script.ts:70 | a second firing of the reset timer changes nothing |
| `Script.RestoresLeaveNormal` | script.ts:45-49 | once a scheduled restore has fired, the indicator is at normal size however many more fire |
| `Script.RestoresStayNormal` | script.ts:144-149 | a normal-size indicator stays normal under any number of restores |
| `Script.AllRestoresLeaveNormal` | script.ts:45-49 | once all scheduled restores have fired the indicator is at normal size with none pending |
| `Script.FourRightPresses` | script.ts:56-77 | four quick Right presses from (100, 100) give x = 110, 130, 170, 270 at speeds 0, 1, 2, 3 |
| `Script.Controller.constructor` | script.ts:16-24 | the fields start as the load-time state |
| `Script.Controller.Mouse` | script.ts:26-81 | the update is `Activate` and keeps the invariant |
| `Script.Controller.OnKeyDown` | script.ts:31-78 | the new fields and the requested effect are those of `Dispatch`, and the invariant is kept |
| `Script.Controller.Proceed` | script.ts:52-77 | the update is `Advance` |
| `Script.Controller.RampSpeed` | script.ts:52-71 | the update is `Ramp`, and the speed ends in [0, 3] |
| `Script.Controller.SetCursorSpeed` | script.ts:104-108 | the update is `WithSpeed` |
| `Script.Controller.MoveCursor` | script.ts:110-136 | the update is `Translate` |
| `Script.Controller.SetCursorColor` | script.ts:138-142 | only the fill changes |
| `Script.Controller.SetCursorSize` | script.ts:144-149 | only the size changes |
| `Script.Controller.OnSpeedResetTimeout` | script.ts:70 | the update is `SpeedReset` and keeps the invariant |
| `Script.Controller.OnSizeRestoreTimeout` | script.ts:47-49 | the update is `SizeRestore` and keeps the invariant |

## Left out

- The DOM construction and styling in `createMouseCursor`, `setCursorColor` and `setCursorSize` are not modelled. These are the element, its CSS position, its pixel sizes and colour strings, the border, `zIndex`, the transform and the `display` style. The model keeps each of these as the value it stands for: `Size`, `Color` and `visible`.
- `getBoundingClientRect`, `elementFromPoint` and `element.click()` are browser calls. Whether an element lies under the indicator is a boolean in `Env`, and the click is the recorded effect `Clicked`.
- `window.scrollBy` is a browser side effect, so only the requested offset is kept, as `Scrolled(top)`.
- `setTimeout`, `clearTimeout` and `Date.now` are not modelled as real clocks or timers.
  - Each key event carries one time `now`, so the two clock reads of one event are one value.
  - A scheduled speed reset is a flag and fires as an event.
  - Size restores are a count of scheduled timeouts that fire one at a time, as explicit events.
  - The model allows firing orders that the real 100 ms and 300 ms delays would exclude.
- `console.log` in `mouse()` and the call of `mouse()` when the module loads in `src/cursor.ts` are left out; `Load` events stand for calls of `mouse()`.
- `preventDefault` and `stopPropagation` are browser event plumbing and do not affect the controller's state.
- The null checks on the `mouseCursor` variable are not modelled as branches. That variable is set by `mouse()` before the listener is registered, so it is never null when a listener or timer runs. The `document.querySelector` check in `moveCursor` is modelled as `Env.cursorPresent`.
- Keys such as `constructor` or `toString`, inherited by the direction table object through its prototype, are not modelled. The model's table contains exactly the four arrow keys.
- Key events that arrive before `mouse()` has run change nothing, because no listener exists yet.
- A `mouse()` call that throws because `document.body` is null (src/cursor.ts:39, script.ts:29) changes nothing, as `Load(false)` does; the exception itself is not modelled.
- A viewport that shrinks between events is not clamped against until the next move. The model allows it, and `RunStaysInView` and `ReachableInView` therefore assume one viewport size for the whole run.
