/** Definitions shared by both variants of the keyboard cursor controller:
    the step table and the fast-move window, the arrow-key table, the clamp
    to the viewport, and the events and browser environment that drive the
    two transition systems. */
module CursorCommon {

  /** Pixels moved per key press at each speed index (`CURSOR_STEPS`). */
  const CursorSteps: seq<int> := [10, 20, 40, 100]
  /** The highest speed index, `CURSOR_STEPS.length - 1`. */
  const MaxSpeed: int := |CursorSteps| - 1
  /** Two presses closer together than this count as one rapid sequence. */
  const FastMoveTime: int := 300
  /** Vertical distance of one scroll request (evolved variant). */
  const ScrollAmount: int := 200

  datatype Option<+T> = None | Some(value: T)

  datatype Direction = Up | Down | Left | Right

  /** The indicator's diameter: 12px normally, 20px during click feedback. */
  datatype Size = Normal | Big

  /** The indicator's fill: the yellow slow tint or the white fast tint. */
  datatype Color = SlowColor | FastColor

  /** A key-down record; `now` stands for the clock read while handling it. */
  datatype KeyEvent = KeyEvent(code: string, key: string, altKey: bool, shiftKey: bool, now: int)

  /** What the browser answers while one event is handled: the viewport size,
      whether an element with class `mouse-cursor` is in the document, and
      whether some element lies under the indicator's top-left corner. */
  datatype Env = Env(innerWidth: nat, innerHeight: nat, cursorPresent: bool, elementUnderPoint: bool)

  /** A side effect on the page that the controller requests. */
  datatype Effect = NoEffect | Clicked | Scrolled(top: int)

  /** Everything that can happen to a controller: a key press, one of the two
      kinds of timer firing, or a call of the initialisation entry point. */
  datatype Event =
    | Press(e: KeyEvent, env: Env)
    | SpeedTimerFires
    | SizeTimerFires
    | Load(hasDocument: bool)

  /** The `key` value of the arrow key for a direction. */
  function DirectionKey(d: Direction): string
  {
    match d
    case Up => "ArrowUp"
    case Down => "ArrowDown"
    case Left => "ArrowLeft"
    case Right => "ArrowRight"
  }

  /** `KEY_TO_DIRECTION[key]`: defined exactly on the four arrow keys. */
  function KeyToDirection(key: string): (d: Option<Direction>)
    ensures d.Some? ==> DirectionKey(d.value) == key
    ensures d.None? ==> forall x :: DirectionKey(x) != key
  {
    if key == "ArrowUp" then Some(Up)
    else if key == "ArrowDown" then Some(Down)
    else if key == "ArrowLeft" then Some(Left)
    else if key == "ArrowRight" then Some(Right)
    else None
  }

  lemma DirectionKeyRoundTrip(d: Direction)
    ensures KeyToDirection(DirectionKey(d)) == Some(d)
  {
  }

  /** `isDirectionX`: the directions along the x axis, i.e. exactly the
      directions that are not vertical. */
  predicate IsHorizontal(d: Direction)
    ensures IsHorizontal(d) <==> !(d == Up || d == Down)
  {
    d == Left || d == Right
  }

  /** The displacement of one step of `step` pixels in screen coordinates
      (y grows downwards): only the axis of the direction changes. */
  function Displacement(d: Direction, step: int): (delta: (int, int))
    ensures IsHorizontal(d) ==> delta.1 == 0
    ensures !IsHorizontal(d) ==> delta.0 == 0
    ensures delta.0 + delta.1 == if d == Right || d == Down then step else -step
  {
    match d
    case Up => (0, -step)
    case Down => (0, step)
    case Left => (-step, 0)
    case Right => (step, 0)
  }

  /** The clamp of `moveCursor`: first raise a negative coordinate to 0, then
      lower one beyond the viewport edge to the edge. */
  function Clamp(v: int, edge: nat): (r: int)
    ensures 0 <= r <= edge
    ensures 0 <= v <= edge ==> r == v
    ensures v < 0 ==> r == 0
    ensures edge < v ==> r == edge
  {
    var raised := if v < 0 then 0 else v;
    if raised > edge then edge else raised
  }

  /** `Math.min(speed + 1, CURSOR_STEPS.length - 1)`. */
  function Faster(speed: int): (r: int)
    ensures 0 <= speed <= MaxSpeed ==> 0 <= r <= MaxSpeed
    ensures speed < MaxSpeed ==> r == speed + 1
    ensures MaxSpeed <= speed ==> r == MaxSpeed
  {
    if speed + 1 < MaxSpeed then speed + 1 else MaxSpeed
  }

  /** `Math.max(speed - 2, 0)`. */
  function Slower(speed: int): (r: int)
    ensures 0 <= speed <= MaxSpeed ==> 0 <= r <= MaxSpeed
    ensures 2 <= speed ==> r == speed - 2
    ensures speed < 2 ==> r == 0
  {
    if speed - 2 > 0 then speed - 2 else 0
  }

  /** The fill that `setCursorSpeed` picks for a speed. */
  function ColorFor(speed: int): (c: Color)
    ensures c == SlowColor <==> speed == 0
  {
    if speed == 0 then SlowColor else FastColor
  }
}
