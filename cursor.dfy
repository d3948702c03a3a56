/** The evolved variant of the keyboard cursor controller (src/cursor.ts):
    arrow keys move the indicator with speed ramping, Alt+M toggles its
    visibility and gates everything else, Left-Shift resets the speed,
    Alt+ArrowUp / Alt+ArrowDown scroll and Alt+Enter clicks.

    `State` is the value of the module-level variables; the functions below
    are the transitions and `Controller` is the same machine written as the
    source writes it, with fields updated in place. */
module Cursor {
  import opened CursorCommon

  const ClickKey := "Enter"
  const ResetSpeedKey := "ShiftLeft"
  const ScrollUpKey := "ArrowUp"
  const ScrollDownKey := "ArrowDown"
  const ToggleCursorKey := "KeyM"

  /** `resetPending` stands for a `speedResetTimeout` that is scheduled and has
      neither fired nor been cleared; `sizeRestores` counts scheduled size
      restores that have not fired yet. */
  datatype State = State(
    executed: bool,
    visible: bool,
    speed: int,
    lastMoveTime: int,
    resetPending: bool,
    lastDirectionX: Option<Direction>,
    lastDirectionY: Option<Direction>,
    x: int,
    y: int,
    size: Size,
    color: Color,
    sizeRestores: nat)

  datatype Outcome = Outcome(state: State, effect: Effect)

  /** The invariant of every reachable state: the speed indexes the step table,
      the fill is the slow tint exactly at speed 0, an enlarged indicator
      always has a restore pending, and nothing has happened before `mouse()`. */
  ghost predicate Consistent(s: State)
  {
    && 0 <= s.speed <= MaxSpeed
    && (s.color == SlowColor <==> s.speed == 0)
    && (s.size == Big ==> s.sizeRestores > 0)
    && (!s.executed ==> s.speed == 0 && !s.resetPending && s.sizeRestores == 0 && !s.visible)
  }

  /** The values the module-level variables have when the script is loaded. */
  function Start(): (s: State)
    ensures Consistent(s) && !s.executed && s.speed == 0 && s.color == SlowColor
  {
    State(false, false, 0, 0, false, None, None, 100, 100, Normal, SlowColor, 0)
  }

  /** `mouse()`: without a document, or once it has run, nothing happens;
      otherwise it creates the indicator at normal size with the slow fill
      and registers the listener. */
  function Activate(s: State, hasDocument: bool): (r: State)
    requires Consistent(s)
    ensures Consistent(r)
    ensures r == s.(executed := s.executed || hasDocument)
  {
    if !hasDocument || s.executed then s
    else s.(size := Normal, color := SlowColor, executed := true)
  }

  /** `setCursorSpeed`: a value outside the step table is ignored. */
  function WithSpeed(s: State, v: int): (r: State)
    ensures 0 <= v <= MaxSpeed ==> r.speed == v && (r.color == SlowColor <==> v == 0)
    ensures !(0 <= v <= MaxSpeed) ==> r == s
    ensures r.(speed := s.speed, color := s.color) == s
    ensures Consistent(s) && (s.executed || v == 0) ==> Consistent(r)
  {
    if v < 0 || v > MaxSpeed then s
    else s.(speed := v, color := ColorFor(v))
  }

  /** `toggleCursorVisibility`. */
  function Toggle(s: State): (r: State)
    ensures r.visible == !s.visible
    ensures r.(visible := s.visible) == s
  {
    s.(visible := !s.visible)
  }

  /** `handleClick`: the element under the indicator, if any, is clicked, and
      the indicator is enlarged with one more size restore scheduled. */
  function Click(s: State, env: Env): (o: Outcome)
    ensures o.state.size == Big && o.state.sizeRestores == s.sizeRestores + 1
    ensures o.state.(size := s.size, sizeRestores := s.sizeRestores) == s
    ensures o.effect == Clicked <==> env.elementUnderPoint
    ensures o.effect == Clicked || o.effect == NoEffect
    ensures Consistent(s) && s.executed ==> Consistent(o.state)
  {
    var effect := if env.elementUnderPoint then Clicked else NoEffect;
    Outcome(s.(size := Big, sizeRestores := s.sizeRestores + 1), effect)
  }

  /** `handleScroll`: the page is asked to scroll 200px up or down. */
  function ScrollRequest(d: Direction): (e: Effect)
    requires d == Up || d == Down
    ensures e.Scrolled? && (e.top == ScrollAmount || e.top == -ScrollAmount)
    ensures e.top < 0 <==> d == Up
  {
    Scrolled(if d == Up then -ScrollAmount else ScrollAmount)
  }

  /** `moveCursor`: when the indicator is in the document, move it one step of
      the current speed and clamp both coordinates to the viewport. */
  function Translate(s: State, d: Direction, env: Env): (r: State)
    requires 0 <= s.speed <= MaxSpeed
    ensures !env.cursorPresent ==> r == s
    ensures env.cursorPresent ==> 0 <= r.x <= env.innerWidth && 0 <= r.y <= env.innerHeight
    ensures r == s.(x := r.x, y := r.y)
  {
    if !env.cursorPresent then s
    else
      var step := CursorSteps[s.speed];
      var x := match d case Left => s.x - step case Right => s.x + step case _ => s.x;
      var y := match d case Up => s.y - step case Down => s.y + step case _ => s.y;
      s.(x := Clamp(x, env.innerWidth), y := Clamp(y, env.innerHeight))
  }

  /** The direction last moved along the axis of `d`. */
  function AxisMemory(s: State, d: Direction): Option<Direction>
  {
    if IsHorizontal(d) then s.lastDirectionX else s.lastDirectionY
  }

  /** A move is switched when it is not the remembered direction of its axis;
      in particular the first move along an axis is switched. */
  predicate Switched(s: State, d: Direction)
    ensures Switched(s, d) <==> AxisMemory(s, d).None? || AxisMemory(s, d).value != d
    ensures IsHorizontal(d) && s.lastDirectionX.None? ==> Switched(s, d)
    ensures !IsHorizontal(d) && s.lastDirectionY.None? ==> Switched(s, d)
  {
    AxisMemory(s, d) != Some(d)
  }

  /** The speed part of `handleMove`: the pending reset is cleared; a move within
      the fast window changes the speed and schedules a new reset. */
  function Ramp(s: State, d: Direction, now: int): (r: State)
    requires Consistent(s)
    ensures 0 <= r.speed <= MaxSpeed
    ensures s.executed ==> Consistent(r)
  {
    var cleared := s.(resetPending := false);
    if now - s.lastMoveTime < FastMoveTime then
      var newSpeed := if Switched(s, d) then Slower(s.speed) else Faster(s.speed);
      WithSpeed(cleared, newSpeed).(resetPending := true)
    else cleared
  }

  /** `handleMove`: ramp the speed, move at the new speed, then remember the
      direction on its axis and the time. */
  function Move(s: State, d: Direction, now: int, env: Env): (r: State)
    requires Consistent(s)
    ensures s.executed ==> Consistent(r)
  {
    Remember(Translate(Ramp(s, d, now), d, env), d, now)
  }

  /** The last step of `handleMove`: the axis of `d` remembers `d`, and the
      time of the move is recorded. */
  function Remember(s: State, d: Direction, now: int): (r: State)
    ensures AxisMemory(r, d) == Some(d) && !Switched(r, d)
    ensures IsHorizontal(d) ==> r.lastDirectionY == s.lastDirectionY
    ensures !IsHorizontal(d) ==> r.lastDirectionX == s.lastDirectionX
    ensures r.lastMoveTime == now
    ensures r.(lastDirectionX := s.lastDirectionX, lastDirectionY := s.lastDirectionY,
               lastMoveTime := s.lastMoveTime) == s
  {
    if IsHorizontal(d) then s.(lastDirectionX := Some(d), lastMoveTime := now)
    else s.(lastDirectionY := Some(d), lastMoveTime := now)
  }

  /** The keydown listener. Before `mouse()` has run there is no listener. */
  function Dispatch(s: State, e: KeyEvent, env: Env): (o: Outcome)
    requires Consistent(s)
    ensures Consistent(o.state)
    ensures !s.executed ==> o == Outcome(s, NoEffect)
  {
    if !s.executed then Outcome(s, NoEffect)
    else if e.code == ToggleCursorKey && e.altKey then Outcome(Toggle(s), NoEffect)
    else if !s.visible then Outcome(s, NoEffect)
    else
      var s' := if e.code == ResetSpeedKey then WithSpeed(s, 0) else s;
      if e.code == ClickKey && e.altKey then Click(s', env)
      else if e.code == ScrollUpKey && e.altKey then Outcome(s', ScrollRequest(Up))
      else if e.code == ScrollDownKey && e.altKey then Outcome(s', ScrollRequest(Down))
      else match KeyToDirection(e.key)
        case Some(d) => Outcome(Move(s', d, e.now, env), NoEffect)
        case None => Outcome(s', NoEffect)
  }

  /** The speed-reset timer fires: `setCursorSpeed(0)`. */
  function SpeedReset(s: State): (r: State)
    requires Consistent(s)
    ensures Consistent(r)
    ensures s.resetPending ==> r.speed == 0 && r.color == SlowColor && !r.resetPending
    ensures !s.resetPending ==> r == s
    ensures r.(speed := s.speed, color := s.color, resetPending := s.resetPending) == s
  {
    if !s.resetPending then s
    else WithSpeed(s.(resetPending := false), 0)
  }

  /** A size-restore timer fires: `setCursorSize('normal')`. */
  function SizeRestore(s: State): (r: State)
    requires Consistent(s)
    ensures Consistent(r)
    ensures s.sizeRestores > 0 ==> r.size == Normal && r.sizeRestores == s.sizeRestores - 1
    ensures s.sizeRestores == 0 ==> r == s
    ensures r.(size := s.size, sizeRestores := s.sizeRestores) == s
  {
    if s.sizeRestores == 0 then s
    else s.(size := Normal, sizeRestores := s.sizeRestores - 1)
  }

  function Step(s: State, ev: Event): (r: State)
    requires Consistent(s)
    ensures Consistent(r)
  {
    match ev
    case Press(e, env) => Dispatch(s, e, env).state
    case SpeedTimerFires => SpeedReset(s)
    case SizeTimerFires => SizeRestore(s)
    case Load(hasDocument) => Activate(s, hasDocument)
  }

  /** The state after a sequence of events; every state the controller can
      reach is consistent, so the speed never leaves [0, 3] and the fill is
      the slow tint exactly at speed 0. */
  function Run(s: State, evs: seq<Event>): (r: State)
    requires Consistent(s)
    ensures Consistent(r)
    decreases |evs|
  {
    if evs == [] then s else Run(Step(s, evs[0]), evs[1..])
  }

  /** `n` size-restore timers fire one after another. */
  function Restores(s: State, n: nat): (r: State)
    requires Consistent(s)
    ensures Consistent(r)
    ensures r.sizeRestores == if n <= s.sizeRestores then s.sizeRestores - n else 0
    decreases n
  {
    if n == 0 then s else Restores(SizeRestore(s), n - 1)
  }

  // ----- Properties of the transition system -----

  /** `moveCursor` changes only the position: the moved axis by one step of
      the current speed, then both coordinates are clamped to the viewport; a
      coordinate already inside the viewport on the other axis stays put. */
  lemma TranslateMovesOneStep(s: State, d: Direction, env: Env)
    requires 0 <= s.speed <= MaxSpeed && env.cursorPresent
    ensures var r := Translate(s, d, env);
      && r.x == Clamp(s.x + Displacement(d, CursorSteps[s.speed]).0, env.innerWidth)
      && r.y == Clamp(s.y + Displacement(d, CursorSteps[s.speed]).1, env.innerHeight)
      && (IsHorizontal(d) && 0 <= s.y <= env.innerHeight ==> r.y == s.y)
      && (!IsHorizontal(d) && 0 <= s.x <= env.innerWidth ==> r.x == s.x)
      && r.(x := s.x, y := s.y) == s
  {
  }

  /** The speed rule of a move: within the fast window a switched move drops
      the speed by 2 (not below 0) and any other raises it by 1 (not above 3),
      and a reset is left pending; after a pause the speed stays and any
      pending reset is cancelled without a new one. */
  lemma MoveRampsSpeed(s: State, d: Direction, now: int, env: Env)
    requires Consistent(s)
    ensures var r := Move(s, d, now, env);
      && (now - s.lastMoveTime < FastMoveTime ==>
            && r.resetPending
            && r.speed == (if Switched(s, d) then Slower(s.speed) else Faster(s.speed)))
      && (FastMoveTime <= now - s.lastMoveTime ==> !r.resetPending && r.speed == s.speed)
  {
  }

  /** The position after a move: without the indicator in the document it is
      untouched; otherwise the moved axis goes one step of the already ramped
      speed and both coordinates are clamped. */
  lemma MovePosition(s: State, d: Direction, now: int, env: Env)
    requires Consistent(s)
    ensures var r := Move(s, d, now, env);
      && (!env.cursorPresent ==> r.x == s.x && r.y == s.y)
      && (env.cursorPresent ==>
            && 0 <= r.x <= env.innerWidth && 0 <= r.y <= env.innerHeight
            && r.x == Clamp(s.x + Displacement(d, CursorSteps[r.speed]).0, env.innerWidth)
            && r.y == Clamp(s.y + Displacement(d, CursorSteps[r.speed]).1, env.innerHeight))
  {
    var ramped := Ramp(s, d, now);
    if env.cursorPresent {
      TranslateMovesOneStep(ramped, d, env);
    }
  }

  /** After a move its axis remembers the direction, the other axis keeps its
      memory, the time is `now`, and visibility and size are untouched, whether
      or not the position changed. */
  lemma MoveRemembers(s: State, d: Direction, now: int, env: Env)
    requires Consistent(s)
    ensures var r := Move(s, d, now, env);
      && AxisMemory(r, d) == Some(d)
      && (IsHorizontal(d) ==> r.lastDirectionY == s.lastDirectionY)
      && (!IsHorizontal(d) ==> r.lastDirectionX == s.lastDirectionX)
      && r.lastMoveTime == now
      && r.executed == s.executed && r.visible == s.visible
      && r.size == s.size && r.sizeRestores == s.sizeRestores
  {
  }

  /** Calling `mouse()` more than once acts like calling it once. */
  lemma ActivateIdempotent(s: State, first: bool, second: bool)
    requires Consistent(s)
    ensures Activate(Activate(s, first), second) == Activate(s, first || second)
  {
  }

  /** While the indicator is hidden, every key other than Alt+M changes nothing. */
  lemma HiddenIgnoresKeys(s: State, e: KeyEvent, env: Env)
    requires Consistent(s) && !s.visible
    requires !(e.code == ToggleCursorKey && e.altKey)
    ensures Dispatch(s, e, env) == Outcome(s, NoEffect)
  {
  }

  /** Alt+M flips the visibility only, and toggling twice restores the state. */
  lemma ToggleTwiceRestores(s: State, e1: KeyEvent, e2: KeyEvent, env1: Env, env2: Env)
    requires Consistent(s) && s.executed
    requires e1.code == ToggleCursorKey && e1.altKey
    requires e2.code == ToggleCursorKey && e2.altKey
    ensures Dispatch(s, e1, env1) == Outcome(s.(visible := !s.visible), NoEffect)
    ensures Dispatch(Dispatch(s, e1, env1).state, e2, env2).state == s
  {
  }

  /** Left-Shift (which has no arrow `key`) drops the speed to 0 and leaves a
      pending reset pending. */
  lemma ResetKeyDropsSpeed(s: State, e: KeyEvent, env: Env)
    requires Consistent(s) && s.executed && s.visible
    requires e.code == ResetSpeedKey && KeyToDirection(e.key).None?
    ensures Dispatch(s, e, env) == Outcome(s.(speed := 0, color := SlowColor), NoEffect)
  {
  }

  /** Alt+ArrowUp and Alt+ArrowDown only request a scroll of -200 or +200. */
  lemma AltArrowScrolls(s: State, e: KeyEvent, env: Env)
    requires Consistent(s) && s.executed && s.visible && e.altKey
    requires e.code == ScrollUpKey || e.code == ScrollDownKey
    ensures Dispatch(s, e, env).state == s
    ensures Dispatch(s, e, env).effect ==
              Scrolled(if e.code == ScrollUpKey then -ScrollAmount else ScrollAmount)
  {
  }

  /** Alt+Enter leaves position, speed, direction memory, time and the reset
      timer alone, always enlarges the indicator, and clicks exactly when an
      element lies under it. */
  lemma AltEnterClicks(s: State, e: KeyEvent, env: Env)
    requires Consistent(s) && s.executed && s.visible
    requires e.code == ClickKey && e.altKey
    ensures var r := Dispatch(s, e, env).state;
      && r.x == s.x && r.y == s.y && r.speed == s.speed
      && r.lastDirectionX == s.lastDirectionX && r.lastDirectionY == s.lastDirectionY
      && r.lastMoveTime == s.lastMoveTime && r.resetPending == s.resetPending
      && r.size == Big && r.sizeRestores == s.sizeRestores + 1
    ensures Dispatch(s, e, env).effect == Clicked <==> env.elementUnderPoint
  {
  }

  /** An arrow key without a scroll binding is a move. */
  lemma ArrowKeyMoves(s: State, e: KeyEvent, env: Env, d: Direction)
    requires Consistent(s) && s.executed && s.visible
    requires e.key == DirectionKey(d) && e.code != ResetSpeedKey
    requires !(e.altKey && (e.code == ClickKey || e.code == ScrollUpKey || e.code == ScrollDownKey || e.code == ToggleCursorKey))
    ensures Dispatch(s, e, env) == Outcome(Move(s, d, e.now, env), NoEffect)
  {
    DirectionKeyRoundTrip(d);
  }

  /** A move along one axis does not change whether a later move along the
      other axis counts as switched. */
  lemma OtherAxisKeepsSwitch(s: State, d: Direction, now: int, env: Env, d': Direction)
    requires Consistent(s)
    requires IsHorizontal(d) != IsHorizontal(d')
    ensures Switched(Move(s, d, now, env), d') == Switched(s, d')
  {
  }

  /** The indicator lies inside a viewport of the given size. */
  predicate InView(s: State, width: nat, height: nat)
  {
    0 <= s.x <= width && 0 <= s.y <= height
  }

  /** Every key press in `evs` sees a viewport of the given size. */
  predicate FixedViewport(evs: seq<Event>, width: nat, height: nat)
  {
    forall i :: 0 <= i < |evs| && evs[i].Press? ==>
      evs[i].env.innerWidth == width && evs[i].env.innerHeight == height
  }

  /** No event moves the indicator out of a viewport whose size it sees. */
  lemma StepStaysInView(s: State, ev: Event, width: nat, height: nat)
    requires Consistent(s) && InView(s, width, height)
    requires ev.Press? ==> ev.env.innerWidth == width && ev.env.innerHeight == height
    ensures InView(Step(s, ev), width, height)
  {
    match ev {
      case Press(e, env) =>
        var s' := if e.code == ResetSpeedKey then WithSpeed(s, 0) else s;
        var d := KeyToDirection(e.key);
        if d.Some? {
          MovePosition(s', d.value, e.now, env);
        }
      case _ =>
    }
  }

  /** While the viewport keeps its size, the indicator never leaves it. */
  lemma {:induction false} RunStaysInView(s: State, evs: seq<Event>, width: nat, height: nat)
    requires Consistent(s) && InView(s, width, height) && FixedViewport(evs, width, height)
    ensures InView(Run(s, evs), width, height)
    decreases |evs|
  {
    if evs != [] {
      StepStaysInView(s, evs[0], width, height);
      assert FixedViewport(evs[1..], width, height) by {
        forall i | 0 <= i < |evs[1..]| && evs[1..][i].Press?
          ensures evs[1..][i].env.innerWidth == width && evs[1..][i].env.innerHeight == height
        {
          assert evs[1..][i] == evs[i + 1];
        }
      }
      RunStaysInView(Step(s, evs[0]), evs[1..], width, height);
    }
  }

  /** Loaded in a viewport of at least 100 x 100 pixels that keeps its size,
      the indicator is inside it after any sequence of events. */
  lemma ReachableInView(evs: seq<Event>, width: nat, height: nat)
    requires 100 <= width && 100 <= height && FixedViewport(evs, width, height)
    ensures InView(Run(Start(), evs), width, height)
  {
    RunStaysInView(Start(), evs, width, height);
  }

  /** A second firing of the reset timer changes nothing. */
  lemma SpeedResetIdempotent(s: State)
    requires Consistent(s)
    ensures SpeedReset(SpeedReset(s)) == SpeedReset(s)
  {
  }

  /** Once at least one size restore has fired, the indicator is at normal
      size, however many further restores fire. */
  lemma {:induction false} RestoresLeaveNormal(s: State, n: nat)
    requires Consistent(s) && s.sizeRestores > 0 && n >= 1
    ensures Restores(s, n).size == Normal
    decreases n
  {
    if n > 1 {
      var s' := SizeRestore(s);
      if s'.sizeRestores > 0 {
        RestoresLeaveNormal(s', n - 1);
      } else {
        RestoresStayNormal(s', n - 1);
      }
    }
  }

  lemma {:induction false} RestoresStayNormal(s: State, n: nat)
    requires Consistent(s) && s.size == Normal
    ensures Restores(s, n).size == Normal
    decreases n
  {
    if n > 0 {
      RestoresStayNormal(SizeRestore(s), n - 1);
    }
  }

  /** No enlarged state gets stuck: once every scheduled restore has fired
      the indicator is at normal size, e.g. after two quick clicks. */
  lemma {:induction false} AllRestoresLeaveNormal(s: State)
    requires Consistent(s)
    ensures Restores(s, s.sizeRestores).size == Normal
    ensures Restores(s, s.sizeRestores).sizeRestores == 0
  {
    if s.sizeRestores > 0 {
      RestoresLeaveNormal(s, s.sizeRestores);
    }
  }

  function RightPress(now: int): KeyEvent
  {
    KeyEvent("ArrowRight", "ArrowRight", false, false, now)
  }

  /** From (100, 100) at speed 0, four quick Right presses move to x = 110,
      130, 170, 270 at speeds 0, 1, 2, 3: the first press comes long after
      time 0 and keeps speed 0, and each later one follows within the fast
      window along the remembered direction and raises the speed. */
  lemma FourRightPresses()
    ensures
      var env := Env(1920, 1080, true, true);
      var s0 := Dispatch(Activate(Start(), true), KeyEvent("KeyM", "m", true, false, 0), env).state;
      var s1 := Dispatch(s0, RightPress(1000), env).state;
      var s2 := Dispatch(s1, RightPress(1100), env).state;
      var s3 := Dispatch(s2, RightPress(1200), env).state;
      var s4 := Dispatch(s3, RightPress(1300), env).state;
      && s1.x == 110 && s1.speed == 0
      && s2.x == 130 && s2.speed == 1
      && s3.x == 170 && s3.speed == 2
      && s4.x == 270 && s4.speed == 3
      && s4.y == 100
  {
    var env := Env(1920, 1080, true, true);
    var s0 := Dispatch(Activate(Start(), true), KeyEvent("KeyM", "m", true, false, 0), env).state;
    assert s0.visible && s0.speed == 0 && s0.x == 100;
    var s1 := Dispatch(s0, RightPress(1000), env).state;
    assert s1.x == 110 && s1.speed == 0 && s1.lastDirectionX == Some(Right);
    var s2 := Dispatch(s1, RightPress(1100), env).state;
    assert s2.x == 130 && s2.speed == 1;
    var s3 := Dispatch(s2, RightPress(1200), env).state;
    assert s3.x == 170 && s3.speed == 2;
  }

  /** The controller as the source writes it: the module-level variables are
      fields and every function of the source is a method updating them. */
  class Controller {
    var executed: bool
    var cursorVisible: bool
    var cursorSpeed: int
    var lastMoveTime: int
    var speedResetPending: bool
    var lastDirectionX: Option<Direction>
    var lastDirectionY: Option<Direction>
    var cursorX: int
    var cursorY: int
    var cursorSize: Size
    var cursorColor: Color
    var sizeRestoresPending: nat

    function Snapshot(): State
      reads this
    {
      State(executed, cursorVisible, cursorSpeed, lastMoveTime, speedResetPending,
            lastDirectionX, lastDirectionY, cursorX, cursorY, cursorSize, cursorColor,
            sizeRestoresPending)
    }

    ghost predicate Valid()
      reads this
    {
      Consistent(Snapshot())
    }

    /** Loading the script. */
    constructor ()
      ensures Valid() && Snapshot() == Start()
    {
      executed := false;
      cursorVisible := false;
      cursorSpeed := 0;
      lastMoveTime := 0;
      speedResetPending := false;
      lastDirectionX := None;
      lastDirectionY := None;
      cursorX := 100;
      cursorY := 100;
      cursorSize := Normal;
      cursorColor := SlowColor;
      sizeRestoresPending := 0;
    }

    method Mouse(hasDocument: bool)
      requires Valid()
      modifies this
      ensures Valid() && Snapshot() == Activate(old(Snapshot()), hasDocument)
    {
      if !hasDocument || executed {
        return;
      }
      // createMouseCursor: a hidden indicator of normal size with the slow fill
      cursorSize := Normal;
      cursorColor := SlowColor;
      executed := true;
    }

    /** The keydown listener; `mouseCursor` is set whenever it can run. */
    method OnKeyDown(e: KeyEvent, env: Env) returns (effect: Effect)
      requires Valid()
      modifies this
      ensures Valid()
      ensures Outcome(Snapshot(), effect) == Dispatch(old(Snapshot()), e, env)
    {
      effect := NoEffect;
      if !executed {
        return;
      }
      if e.code == ToggleCursorKey && e.altKey {
        ToggleCursorVisibility();
        return;
      }
      if !cursorVisible {
        return;
      }
      if e.code == ResetSpeedKey {
        SetCursorSpeed(0);
      }
      if e.code == ClickKey && e.altKey {
        effect := HandleClick(env);
        return;
      }
      if e.code == ScrollUpKey && e.altKey {
        effect := HandleScroll(Up);
        return;
      }
      if e.code == ScrollDownKey && e.altKey {
        effect := HandleScroll(Down);
        return;
      }
      var direction := KeyToDirection(e.key);
      if direction.Some? {
        HandleMove(direction.value, e.now, env);
      }
    }

    method ToggleCursorVisibility()
      modifies this
      ensures Snapshot() == Toggle(old(Snapshot()))
    {
      cursorVisible := !cursorVisible;
    }

    method HandleClick(env: Env) returns (effect: Effect)
      modifies this
      ensures Outcome(Snapshot(), effect) == Click(old(Snapshot()), env)
    {
      effect := if env.elementUnderPoint then Clicked else NoEffect;
      SetCursorSize(Big);
      sizeRestoresPending := sizeRestoresPending + 1;
    }

    method HandleMove(direction: Direction, now: int, env: Env)
      requires Valid()
      modifies this
      ensures Snapshot() == Move(old(Snapshot()), direction, now, env)
    {
      var isDirectionX := direction == Left || direction == Right;
      RampSpeed(direction, now);
      MoveCursor(direction, env);
      if isDirectionX {
        lastDirectionX := Some(direction);
      } else {
        lastDirectionY := Some(direction);
      }
      lastMoveTime := now;
    }

    /** The first half of `handleMove`: cancel the pending reset and, within the
        fast window, change the speed and schedule a new reset. */
    method RampSpeed(direction: Direction, now: int)
      requires Valid()
      modifies this
      ensures Snapshot() == Ramp(old(Snapshot()), direction, now)
      ensures 0 <= cursorSpeed <= MaxSpeed
    {
      speedResetPending := false;
      var delta := now - lastMoveTime;
      var isDirectionX := direction == Left || direction == Right;
      var switchedDirection :=
        if isDirectionX then lastDirectionX != Some(direction) else lastDirectionY != Some(direction);
      if delta < FastMoveTime {
        var newSpeed := if switchedDirection then Slower(cursorSpeed) else Faster(cursorSpeed);
        SetCursorSpeed(newSpeed);
        speedResetPending := true;
      }
    }

    method HandleScroll(direction: Direction) returns (effect: Effect)
      requires direction == Up || direction == Down
      ensures effect == ScrollRequest(direction)
    {
      effect := Scrolled(if direction == Up then -ScrollAmount else ScrollAmount);
    }

    method SetCursorSpeed(speed: int)
      modifies this
      ensures Snapshot() == WithSpeed(old(Snapshot()), speed)
    {
      if speed < 0 || speed > MaxSpeed {
        return;
      }
      cursorSpeed := speed;
      SetCursorColor(if speed == 0 then SlowColor else FastColor);
    }

    method MoveCursor(direction: Direction, env: Env)
      requires 0 <= cursorSpeed <= MaxSpeed
      modifies this
      ensures Snapshot() == Translate(old(Snapshot()), direction, env)
    {
      if !env.cursorPresent {
        return;
      }
      match direction {
        case Up => cursorY := cursorY - CursorSteps[cursorSpeed];
        case Down => cursorY := cursorY + CursorSteps[cursorSpeed];
        case Left => cursorX := cursorX - CursorSteps[cursorSpeed];
        case Right => cursorX := cursorX + CursorSteps[cursorSpeed];
      }

      if cursorY < 0 { cursorY := 0; }
      if cursorX < 0 { cursorX := 0; }
      if cursorY > env.innerHeight { cursorY := env.innerHeight; }
      if cursorX > env.innerWidth { cursorX := env.innerWidth; }
    }

    method SetCursorColor(color: Color)
      modifies this
      ensures Snapshot() == old(Snapshot()).(color := color)
    {
      cursorColor := color;
    }

    method SetCursorSize(size: Size)
      modifies this
      ensures Snapshot() == old(Snapshot()).(size := size)
    {
      cursorSize := size;
    }

    /** The callback of `speedResetTimeout`. */
    method OnSpeedResetTimeout()
      requires Valid()
      modifies this
      ensures Valid() && Snapshot() == SpeedReset(old(Snapshot()))
    {
      if !speedResetPending {
        return;
      }
      speedResetPending := false;
      SetCursorSpeed(0);
    }

    /** The callback of one size-restore timeout. */
    method OnSizeRestoreTimeout()
      requires Valid()
      modifies this
      ensures Valid() && Snapshot() == SizeRestore(old(Snapshot()))
    {
      if sizeRestoresPending == 0 {
        return;
      }
      sizeRestoresPending := sizeRestoresPending - 1;
      SetCursorSize(Normal);
    }
  }
}
