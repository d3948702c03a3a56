/** The base variant of the keyboard cursor controller (script.ts): a single
    keydown listener in which the arrow keys move the indicator with speed
    ramping, Shift forces the slowest speed, and Enter clicks the element
    under the indicator and then runs the speed and movement path with no
    direction at all.

    `State` is the value of the module-level variables; the functions below
    are the transitions and `Controller` is the same machine written as the
    source writes it, with fields updated in place. */
module Script {
  import opened CursorCommon

  const ClickKey := "Enter"

  /** A remembered direction. `lastDirectionY` is assigned `direction` even
      when Enter leaves it `undefined`, and in the source's strict comparison
      `undefined` differs from the initial `null` but equals itself. */
  datatype Memory = Null | Undefined | Remembered(d: Direction)

  /** `resetPending` stands for a `speedResetTimeout` that is scheduled and has
      neither fired nor been cleared; `sizeRestores` counts scheduled size
      restores that have not fired yet. */
  datatype State = State(
    executed: bool,
    speed: int,
    lastMoveTime: int,
    resetPending: bool,
    lastDirectionX: Memory,
    lastDirectionY: Memory,
    x: int,
    y: int,
    size: Size,
    color: Color,
    sizeRestores: nat)

  datatype Outcome = Outcome(state: State, effect: Effect)

  /** The invariant of every reachable state: the speed indexes the step table,
      the fill is the slow tint exactly at speed 0, an enlarged indicator
      always has a restore pending, and nothing has happened before `mouse()`. */
  ghost predicate Consistent(s: State)
  {
    && 0 <= s.speed <= MaxSpeed
    && (s.color == SlowColor <==> s.speed == 0)
    && (s.size == Big ==> s.sizeRestores > 0)
    && (!s.executed ==> s.speed == 0 && !s.resetPending && s.sizeRestores == 0)
  }

  /** The values the module-level variables have when the module is loaded. */
  function Start(): (s: State)
    ensures Consistent(s) && !s.executed && s.speed == 0 && s.color == SlowColor
    ensures s.lastDirectionX == Null && s.lastDirectionY == Null
  {
    State(false, 0, 0, false, Null, Null, 100, 100, Normal, SlowColor, 0)
  }

  /** `mouse()`: without a document, or once it has run, nothing happens;
      otherwise it creates the indicator at normal size with the slow fill
      and registers the listener. */
  function Activate(s: State, hasDocument: bool): (r: State)
    requires Consistent(s)
    ensures Consistent(r)
    ensures r == s.(executed := s.executed || hasDocument)
  {
    if !hasDocument || s.executed then s
    else s.(size := Normal, color := SlowColor, executed := true)
  }

  /** `setCursorSpeed`: a value outside the step table is ignored. */
  function WithSpeed(s: State, v: int): (r: State)
    ensures 0 <= v <= MaxSpeed ==> r.speed == v && (r.color == SlowColor <==> v == 0)
    ensures !(0 <= v <= MaxSpeed) ==> r == s
    ensures r.(speed := s.speed, color := s.color) == s
    ensures Consistent(s) && (s.executed || v == 0) ==> Consistent(r)
  {
    if v < 0 || v > MaxSpeed then s
    else s.(speed := v, color := ColorFor(v))
  }

  /** The value `direction` leaves in a remembered direction. */
  function Recall(direction: Option<Direction>): (m: Memory)
    ensures m != Null
    ensures direction.None? <==> m == Undefined
    ensures direction.Some? ==> m == Remembered(direction.value)
  {
    match direction
    case Some(d) => Remembered(d)
    case None => Undefined
  }

  /** `isDirectionX`: false for an Enter press, which has no direction. */
  predicate IsDirectionX(direction: Option<Direction>)
    ensures IsDirectionX(direction) <==> direction.Some? && IsHorizontal(direction.value)
  {
    direction == Some(Left) || direction == Some(Right)
  }

  /** The remembered direction of the axis the event is compared against. */
  function AxisMemory(s: State, direction: Option<Direction>): Memory
  {
    if IsDirectionX(direction) then s.lastDirectionX else s.lastDirectionY
  }

  /** `switchedDirection`: the strict inequality of `direction` and the memory
      of its axis; an Enter press is compared against `lastDirectionY`. */
  predicate Switched(s: State, direction: Option<Direction>)
    ensures AxisMemory(s, direction) == Null ==> Switched(s, direction)
    ensures direction.None? ==> (Switched(s, direction) <==> s.lastDirectionY != Undefined)
    ensures direction.Some? ==>
      (Switched(s, direction) <==> AxisMemory(s, direction) != Remembered(direction.value))
  {
    Recall(direction) != AxisMemory(s, direction)
  }

  /** The speed part of the listener: the pending reset is cleared; with Shift
      the speed drops to 0 and nothing is rescheduled; otherwise an event
      within the fast window changes the speed and schedules a new reset. */
  function Ramp(s: State, direction: Option<Direction>, shiftKey: bool, now: int): (r: State)
    requires Consistent(s)
    ensures 0 <= r.speed <= MaxSpeed
    ensures s.executed ==> Consistent(r)
  {
    var cleared := s.(resetPending := false);
    if shiftKey then WithSpeed(cleared, 0)
    else if now - s.lastMoveTime < FastMoveTime then
      var newSpeed := if Switched(s, direction) then Slower(s.speed) else Faster(s.speed);
      WithSpeed(cleared, newSpeed).(resetPending := true)
    else cleared
  }

  /** `moveCursor`: when the indicator is in the document, move it one step of
      the current speed (no step without a direction) and clamp both
      coordinates to the viewport. */
  function Translate(s: State, direction: Option<Direction>, env: Env): (r: State)
    requires 0 <= s.speed <= MaxSpeed
    ensures !env.cursorPresent ==> r == s
    ensures env.cursorPresent ==> 0 <= r.x <= env.innerWidth && 0 <= r.y <= env.innerHeight
    ensures r == s.(x := r.x, y := r.y)
  {
    if !env.cursorPresent then s
    else
      var step := CursorSteps[s.speed];
      var x := match direction case Some(Left) => s.x - step case Some(Right) => s.x + step case _ => s.x;
      var y := match direction case Some(Up) => s.y - step case Some(Down) => s.y + step case _ => s.y;
      s.(x := Clamp(x, env.innerWidth), y := Clamp(y, env.innerHeight))
  }

  /** The last lines of the listener: the axis of the event remembers
      `direction` (so an Enter press leaves `undefined` in `lastDirectionY`),
      and the time is recorded. */
  function Remember(s: State, direction: Option<Direction>, now: int): (r: State)
    ensures AxisMemory(r, direction) == Recall(direction) && !Switched(r, direction)
    ensures IsDirectionX(direction) ==> r.lastDirectionY == s.lastDirectionY
    ensures !IsDirectionX(direction) ==> r.lastDirectionX == s.lastDirectionX
    ensures r.lastMoveTime == now
    ensures r.(lastDirectionX := s.lastDirectionX, lastDirectionY := s.lastDirectionY,
               lastMoveTime := s.lastMoveTime) == s
  {
    if IsDirectionX(direction) then s.(lastDirectionX := Recall(direction), lastMoveTime := now)
    else s.(lastDirectionY := Recall(direction), lastMoveTime := now)
  }

  /** The listener from the reset timer on: ramp, move, remember. */
  function Advance(s: State, direction: Option<Direction>, shiftKey: bool, now: int, env: Env): (r: State)
    requires Consistent(s)
    ensures s.executed ==> Consistent(r)
  {
    Remember(Translate(Ramp(s, direction, shiftKey, now), direction, env), direction, now)
  }

  /** The click feedback: enlarge the indicator and schedule a restore. */
  function Enlarge(s: State): (r: State)
    ensures r.size == Big && r.sizeRestores == s.sizeRestores + 1
    ensures r.(size := s.size, sizeRestores := s.sizeRestores) == s
    ensures Consistent(s) && s.executed ==> Consistent(r)
  {
    s.(size := Big, sizeRestores := s.sizeRestores + 1)
  }

  /** The keydown listener. Before `mouse()` has run there is no listener. */
  function Dispatch(s: State, e: KeyEvent, env: Env): (o: Outcome)
    requires Consistent(s)
    ensures Consistent(o.state)
    ensures !s.executed ==> o == Outcome(s, NoEffect)
  {
    var direction := KeyToDirection(e.key);
    var clicked := e.key == ClickKey;
    if !s.executed || (direction.None? && !clicked) then Outcome(s, NoEffect)
    else if clicked && !env.elementUnderPoint then Outcome(s, NoEffect)
    else if clicked then Outcome(Advance(Enlarge(s), direction, e.shiftKey, e.now, env), Clicked)
    else Outcome(Advance(s, direction, e.shiftKey, e.now, env), NoEffect)
  }

  /** The speed-reset timer fires: `setCursorSpeed(0)`. */
  function SpeedReset(s: State): (r: State)
    requires Consistent(s)
    ensures Consistent(r)
    ensures s.resetPending ==> r.speed == 0 && r.color == SlowColor && !r.resetPending
    ensures !s.resetPending ==> r == s
    ensures r.(speed := s.speed, color := s.color, resetPending := s.resetPending) == s
  {
    if !s.resetPending then s
    else WithSpeed(s.(resetPending := false), 0)
  }

  /** A size-restore timer fires: `setCursorSize('normal')`. */
  function SizeRestore(s: State): (r: State)
    requires Consistent(s)
    ensures Consistent(r)
    ensures s.sizeRestores > 0 ==> r.size == Normal && r.sizeRestores == s.sizeRestores - 1
    ensures s.sizeRestores == 0 ==> r == s
    ensures r.(size := s.size, sizeRestores := s.sizeRestores) == s
  {
    if s.sizeRestores == 0 then s
    else s.(size := Normal, sizeRestores := s.sizeRestores - 1)
  }

  function Step(s: State, ev: Event): (r: State)
    requires Consistent(s)
    ensures Consistent(r)
  {
    match ev
    case Press(e, env) => Dispatch(s, e, env).state
    case SpeedTimerFires => SpeedReset(s)
    case SizeTimerFires => SizeRestore(s)
    case Load(hasDocument) => Activate(s, hasDocument)
  }

  /** The state after a sequence of events; every state the controller can
      reach is consistent, so the speed never leaves [0, 3] and the fill is
      the slow tint exactly at speed 0. */
  function Run(s: State, evs: seq<Event>): (r: State)
    requires Consistent(s)
    ensures Consistent(r)
    decreases |evs|
  {
    if evs == [] then s else Run(Step(s, evs[0]), evs[1..])
  }

  /** `n` size-restore timers fire one after another. */
  function Restores(s: State, n: nat): (r: State)
    requires Consistent(s)
    ensures Consistent(r)
    ensures r.sizeRestores == if n <= s.sizeRestores then s.sizeRestores - n else 0
    decreases n
  {
    if n == 0 then s else Restores(SizeRestore(s), n - 1)
  }

  // ----- Properties of the transition system -----

  /** Calling `mouse()` more than once acts like calling it once. */
  lemma ActivateIdempotent(s: State, first: bool, second: bool)
    requires Consistent(s)
    ensures Activate(Activate(s, first), second) == Activate(s, first || second)
  {
  }

  /** A key that is neither an arrow key nor Enter changes nothing. */
  lemma IgnoresOtherKeys(s: State, e: KeyEvent, env: Env)
    requires Consistent(s)
    requires forall d :: e.key != DirectionKey(d)
    requires e.key != ClickKey
    ensures Dispatch(s, e, env) == Outcome(s, NoEffect)
  {
  }

  /** An arrow key runs the speed and movement path in its direction. */
  lemma ArrowKeyAdvances(s: State, e: KeyEvent, env: Env, d: Direction)
    requires Consistent(s) && s.executed
    requires e.key == DirectionKey(d)
    ensures Dispatch(s, e, env) == Outcome(Advance(s, Some(d), e.shiftKey, e.now, env), NoEffect)
  {
    DirectionKeyRoundTrip(d);
  }

  /** Enter with nothing under the indicator changes nothing; otherwise it
      clicks, enlarges the indicator and runs the speed path with no
      direction: no step is taken (the position is only clamped),
      `lastDirectionY` becomes `undefined`, and the time is recorded. */
  lemma EnterClicks(s: State, e: KeyEvent, env: Env)
    requires Consistent(s) && s.executed
    requires e.key == ClickKey
    ensures !env.elementUnderPoint ==> Dispatch(s, e, env) == Outcome(s, NoEffect)
    ensures env.elementUnderPoint ==>
      var o := Dispatch(s, e, env);
      && o == Outcome(Advance(Enlarge(s), None, e.shiftKey, e.now, env), Clicked)
      && o.state.size == Big && o.state.sizeRestores == s.sizeRestores + 1
      && o.state.lastDirectionY == Undefined && o.state.lastDirectionX == s.lastDirectionX
      && o.state.lastMoveTime == e.now
      && (env.cursorPresent ==>
            o.state.x == Clamp(s.x, env.innerWidth) && o.state.y == Clamp(s.y, env.innerHeight))
      && (!env.cursorPresent ==> o.state.x == s.x && o.state.y == s.y)
  {
  }

  /** With Shift held the speed drops to 0 and no reset is left pending, since
      the old timer is cleared and no new one is scheduled. */
  lemma ShiftForcesSlowest(s: State, direction: Option<Direction>, now: int, env: Env)
    requires Consistent(s)
    ensures Advance(s, direction, true, now, env).speed == 0
    ensures !Advance(s, direction, true, now, env).resetPending
  {
  }

  /** Without Shift, within the fast window a switched event drops the speed
      by 2 (not below 0), any other raises it by 1 (not above 3), and a reset
      is left pending; after a pause the speed stays and nothing is pending. */
  lemma AdvanceRampsSpeed(s: State, direction: Option<Direction>, now: int, env: Env)
    requires Consistent(s)
    ensures var r := Advance(s, direction, false, now, env);
      && (now - s.lastMoveTime < FastMoveTime ==>
            && r.resetPending
            && r.speed == (if Switched(s, direction) then Slower(s.speed) else Faster(s.speed)))
      && (FastMoveTime <= now - s.lastMoveTime ==> !r.resetPending && r.speed == s.speed)
  {
  }

  /** The displacement of one step along `direction`; none without one. */
  function Offset(direction: Option<Direction>, step: int): (int, int)
  {
    match direction
    case Some(d) => Displacement(d, step)
    case None => (0, 0)
  }

  /** `moveCursor` with the indicator present: one step of the current speed
      along the direction, then the clamp, and nothing but the position
      changes; an Enter press (no direction) only clamps. */
  lemma TranslateMovesOneStep(s: State, direction: Option<Direction>, env: Env)
    requires 0 <= s.speed <= MaxSpeed && env.cursorPresent
    ensures var r := Translate(s, direction, env);
      && r.x == Clamp(s.x + Offset(direction, CursorSteps[s.speed]).0, env.innerWidth)
      && r.y == Clamp(s.y + Offset(direction, CursorSteps[s.speed]).1, env.innerHeight)
      && r.(x := s.x, y := s.y) == s
  {
  }

  /** The position after the movement path: untouched without the indicator in
      the document; otherwise one step of the already ramped speed along the
      direction, if any, and both coordinates clamped to the viewport. */
  lemma AdvancePosition(s: State, direction: Option<Direction>, shiftKey: bool, now: int, env: Env)
    requires Consistent(s)
    ensures var r := Advance(s, direction, shiftKey, now, env);
      && (!env.cursorPresent ==> r.x == s.x && r.y == s.y)
      && (env.cursorPresent ==>
            && 0 <= r.x <= env.innerWidth && 0 <= r.y <= env.innerHeight
            && r.x == Clamp(s.x + Offset(direction, CursorSteps[r.speed]).0, env.innerWidth)
            && r.y == Clamp(s.y + Offset(direction, CursorSteps[r.speed]).1, env.innerHeight))
  {
    var ramped := Ramp(s, direction, shiftKey, now);
    var moved := Translate(ramped, direction, env);
    var r := Remember(moved, direction, now);
    assert r.x == moved.x && r.y == moved.y && r.speed == moved.speed;
    assert ramped.x == s.x && ramped.y == s.y;
    if env.cursorPresent {
      TranslateMovesOneStep(ramped, direction, env);
    }
  }

  /** After the movement path the axis of the event remembers `direction`, the
      other axis keeps its memory and the time is `now`. */
  lemma AdvanceRemembers(s: State, direction: Option<Direction>, shiftKey: bool, now: int, env: Env)
    requires Consistent(s)
    ensures var r := Advance(s, direction, shiftKey, now, env);
      && AxisMemory(r, direction) == Recall(direction)
      && (IsDirectionX(direction) ==> r.lastDirectionY == s.lastDirectionY)
      && (!IsDirectionX(direction) ==> r.lastDirectionX == s.lastDirectionX)
      && r.lastMoveTime == now
      && r.size == s.size && r.sizeRestores == s.sizeRestores
  {
  }

  /** The first Enter compares `undefined` with the initial `null` and counts
      as switched, but a second Enter within the fast window finds `undefined`
      remembered, is not switched, and raises the speed. */
  lemma SecondEnterAccelerates(s: State, e1: KeyEvent, e2: KeyEvent, env1: Env, env2: Env)
    requires Consistent(s) && s.executed && s.lastDirectionY == Null
    requires e1.key == ClickKey && e2.key == ClickKey && !e1.shiftKey && !e2.shiftKey
    requires env1.elementUnderPoint && env2.elementUnderPoint
    requires e2.now - e1.now < FastMoveTime
    ensures var s1 := Dispatch(s, e1, env1).state;
      && Switched(s, None)
      && s1.lastDirectionY == Undefined
      && !Switched(s1, None)
      && Dispatch(s1, e2, env2).state.speed == Faster(s1.speed)
  {
    var s1 := Dispatch(s, e1, env1).state;
    EnterClicks(s, e1, env1);
    EnterClicks(s1, e2, env2);
    AdvanceRampsSpeed(Enlarge(s1), None, e2.now, env2);
  }

  /** The indicator lies inside a viewport of the given size. */
  predicate InView(s: State, width: nat, height: nat)
  {
    0 <= s.x <= width && 0 <= s.y <= height
  }

  /** Every key press in `evs` sees a viewport of the given size. */
  predicate FixedViewport(evs: seq<Event>, width: nat, height: nat)
  {
    forall i :: 0 <= i < |evs| && evs[i].Press? ==>
      evs[i].env.innerWidth == width && evs[i].env.innerHeight == height
  }

  /** No event moves the indicator out of a viewport whose size it sees. */
  lemma StepStaysInView(s: State, ev: Event, width: nat, height: nat)
    requires Consistent(s) && InView(s, width, height)
    requires ev.Press? ==> ev.env.innerWidth == width && ev.env.innerHeight == height
    ensures InView(Step(s, ev), width, height)
  {
    match ev {
      case Press(e, env) =>
        var direction := KeyToDirection(e.key);
        if s.executed {
          AdvancePosition(s, direction, e.shiftKey, e.now, env);
          AdvancePosition(Enlarge(s), direction, e.shiftKey, e.now, env);
        }
      case _ =>
    }
  }

  /** While the viewport keeps its size, the indicator never leaves it. */
  lemma {:induction false} RunStaysInView(s: State, evs: seq<Event>, width: nat, height: nat)
    requires Consistent(s) && InView(s, width, height) && FixedViewport(evs, width, height)
    ensures InView(Run(s, evs), width, height)
    decreases |evs|
  {
    if evs != [] {
      StepStaysInView(s, evs[0], width, height);
      assert FixedViewport(evs[1..], width, height) by {
        forall i | 0 <= i < |evs[1..]| && evs[1..][i].Press?
          ensures evs[1..][i].env.innerWidth == width && evs[1..][i].env.innerHeight == height
        {
          assert evs[1..][i] == evs[i + 1];
        }
      }
      RunStaysInView(Step(s, evs[0]), evs[1..], width, height);
    }
  }

  /** Loaded in a viewport of at least 100 x 100 pixels that keeps its size,
      the indicator is inside it after any sequence of events. */
  lemma ReachableInView(evs: seq<Event>, width: nat, height: nat)
    requires 100 <= width && 100 <= height && FixedViewport(evs, width, height)
    ensures InView(Run(Start(), evs), width, height)
  {
    RunStaysInView(Start(), evs, width, height);
  }

  /** A second firing of the reset timer changes nothing. */
  lemma SpeedResetIdempotent(s: State)
    requires Consistent(s)
    ensures SpeedReset(SpeedReset(s)) == SpeedReset(s)
  {
  }

  /** Once at least one size restore has fired, the indicator is at normal
      size, however many further restores fire. */
  lemma {:induction false} RestoresLeaveNormal(s: State, n: nat)
    requires Consistent(s) && s.sizeRestores > 0 && n >= 1
    ensures Restores(s, n).size == Normal
    decreases n
  {
    if n > 1 {
      var s' := SizeRestore(s);
      if s'.sizeRestores > 0 {
        RestoresLeaveNormal(s', n - 1);
      } else {
        RestoresStayNormal(s', n - 1);
      }
    }
  }

  lemma {:induction false} RestoresStayNormal(s: State, n: nat)
    requires Consistent(s) && s.size == Normal
    ensures Restores(s, n).size == Normal
    decreases n
  {
    if n > 0 {
      RestoresStayNormal(SizeRestore(s), n - 1);
    }
  }

  /** No enlarged state gets stuck: once every scheduled restore has fired
      the indicator is at normal size, e.g. after two quick clicks. */
  lemma {:induction false} AllRestoresLeaveNormal(s: State)
    requires Consistent(s)
    ensures Restores(s, s.sizeRestores).size == Normal
    ensures Restores(s, s.sizeRestores).sizeRestores == 0
  {
    if s.sizeRestores > 0 {
      RestoresLeaveNormal(s, s.sizeRestores);
    }
  }

  function RightPress(now: int): KeyEvent
  {
    KeyEvent("ArrowRight", "ArrowRight", false, false, now)
  }

  /** From (100, 100) at speed 0, four quick Right presses move to x = 110,
      130, 170, 270 at speeds 0, 1, 2, 3: the first press comes long after
      time 0 and keeps speed 0, and each later one follows within the fast
      window along the remembered direction and raises the speed. */
  lemma FourRightPresses()
    ensures
      var env := Env(1920, 1080, true, true);
      var s0 := Activate(Start(), true);
      var s1 := Dispatch(s0, RightPress(1000), env).state;
      var s2 := Dispatch(s1, RightPress(1100), env).state;
      var s3 := Dispatch(s2, RightPress(1200), env).state;
      var s4 := Dispatch(s3, RightPress(1300), env).state;
      && s1.x == 110 && s1.speed == 0
      && s2.x == 130 && s2.speed == 1
      && s3.x == 170 && s3.speed == 2
      && s4.x == 270 && s4.speed == 3
      && s4.y == 100
  {
    var env := Env(1920, 1080, true, true);
    var s0 := Activate(Start(), true);
    var s1 := Dispatch(s0, RightPress(1000), env).state;
    assert s1.x == 110 && s1.speed == 0 && s1.lastDirectionX == Remembered(Right);
    var s2 := Dispatch(s1, RightPress(1100), env).state;
    assert s2.x == 130 && s2.speed == 1;
    var s3 := Dispatch(s2, RightPress(1200), env).state;
    assert s3.x == 170 && s3.speed == 2;
  }

  /** The controller as the source writes it: the module-level variables are
      fields, and the listener and the helpers are methods updating them. */
  class Controller {
    var executed: bool
    var cursorSpeed: int
    var lastMoveTime: int
    var speedResetPending: bool
    var lastDirectionX: Memory
    var lastDirectionY: Memory
    var cursorX: int
    var cursorY: int
    var cursorSize: Size
    var cursorColor: Color
    var sizeRestoresPending: nat

    function Snapshot(): State
      reads this
    {
      State(executed, cursorSpeed, lastMoveTime, speedResetPending, lastDirectionX,
            lastDirectionY, cursorX, cursorY, cursorSize, cursorColor, sizeRestoresPending)
    }

    ghost predicate Valid()
      reads this
    {
      Consistent(Snapshot())
    }

    /** Loading the module. */
    constructor ()
      ensures Valid() && Snapshot() == Start()
    {
      executed := false;
      cursorSpeed := 0;
      lastMoveTime := 0;
      speedResetPending := false;
      lastDirectionX := Null;
      lastDirectionY := Null;
      cursorX := 100;
      cursorY := 100;
      cursorSize := Normal;
      cursorColor := SlowColor;
      sizeRestoresPending := 0;
    }

    method Mouse(hasDocument: bool)
      requires Valid()
      modifies this
      ensures Valid() && Snapshot() == Activate(old(Snapshot()), hasDocument)
    {
      if !hasDocument || executed {
        return;
      }
      // createMouseCursor: an indicator of normal size with the slow fill
      cursorSize := Normal;
      cursorColor := SlowColor;
      executed := true;
    }

    /** The keydown listener; `mouseCursor` is set whenever it can run. */
    method OnKeyDown(e: KeyEvent, env: Env) returns (effect: Effect)
      requires Valid()
      modifies this
      ensures Valid()
      ensures Outcome(Snapshot(), effect) == Dispatch(old(Snapshot()), e, env)
    {
      effect := NoEffect;
      if !executed {
        return;
      }
      var direction := KeyToDirection(e.key);
      var clicked := e.key == ClickKey;
      if direction.None? && !clicked {
        return;
      }
      if clicked {
        if !env.elementUnderPoint {
          return;
        }
        effect := Clicked;
        SetCursorSize(Big);
        sizeRestoresPending := sizeRestoresPending + 1;
      }
      Proceed(direction, e.shiftKey, e.now, env);
    }

    /** The listener from the reset timer on: speed, move, memory and time. */
    method Proceed(direction: Option<Direction>, shiftKey: bool, now: int, env: Env)
      requires Valid()
      modifies this
      ensures Snapshot() == Advance(old(Snapshot()), direction, shiftKey, now, env)
    {
      RampSpeed(direction, shiftKey, now);
      MoveCursor(direction, env);
      var isDirectionX := direction == Some(Left) || direction == Some(Right);
      if isDirectionX {
        lastDirectionX := Recall(direction);
      } else {
        lastDirectionY := Recall(direction);
      }
      lastMoveTime := now;
    }

    /** The listener's speed lines: clear the pending reset, then either force
        speed 0 (Shift) or, within the fast window, ramp and reschedule. */
    method RampSpeed(direction: Option<Direction>, shiftKey: bool, now: int)
      requires Valid()
      modifies this
      ensures Snapshot() == Ramp(old(Snapshot()), direction, shiftKey, now)
      ensures 0 <= cursorSpeed <= MaxSpeed
    {
      speedResetPending := false;
      var isDirectionX := direction == Some(Left) || direction == Some(Right);
      var delta := now - lastMoveTime;
      var switchedDirection :=
        if isDirectionX then Recall(direction) != lastDirectionX else Recall(direction) != lastDirectionY;
      if shiftKey {
        SetCursorSpeed(0);
      } else if delta < FastMoveTime {
        if switchedDirection {
          SetCursorSpeed(Slower(cursorSpeed));
        } else {
          SetCursorSpeed(Faster(cursorSpeed));
        }
        speedResetPending := true;
      }
    }

    method SetCursorSpeed(speed: int)
      modifies this
      ensures Snapshot() == WithSpeed(old(Snapshot()), speed)
    {
      if speed < 0 || speed > MaxSpeed {
        return;
      }
      cursorSpeed := speed;
      SetCursorColor(if speed == 0 then SlowColor else FastColor);
    }

    method MoveCursor(direction: Option<Direction>, env: Env)
      requires 0 <= cursorSpeed <= MaxSpeed
      modifies this
      ensures Snapshot() == Translate(old(Snapshot()), direction, env)
    {
      if !env.cursorPresent {
        return;
      }
      match direction {
        case Some(Up) => cursorY := cursorY - CursorSteps[cursorSpeed];
        case Some(Down) => cursorY := cursorY + CursorSteps[cursorSpeed];
        case Some(Left) => cursorX := cursorX - CursorSteps[cursorSpeed];
        case Some(Right) => cursorX := cursorX + CursorSteps[cursorSpeed];
        case None =>
      }

      if cursorY < 0 { cursorY := 0; }
      if cursorX < 0 { cursorX := 0; }
      if cursorY > env.innerHeight { cursorY := env.innerHeight; }
      if cursorX > env.innerWidth { cursorX := env.innerWidth; }
    }

    method SetCursorColor(color: Color)
      modifies this
      ensures Snapshot() == old(Snapshot()).(color := color)
    {
      cursorColor := color;
    }

    method SetCursorSize(size: Size)
      modifies this
      ensures Snapshot() == old(Snapshot()).(size := size)
    {
      cursorSize := size;
    }

    /** The callback of `speedResetTimeout`. */
    method OnSpeedResetTimeout()
      requires Valid()
      modifies this
      ensures Valid() && Snapshot() == SpeedReset(old(Snapshot()))
    {
      if !speedResetPending {
        return;
      }
      speedResetPending := false;
      SetCursorSpeed(0);
    }

    /** The callback of one size-restore timeout. */
    method OnSizeRestoreTimeout()
      requires Valid()
      modifies this
      ensures Valid() && Snapshot() == SizeRestore(old(Snapshot()))
    {
      if sizeRestoresPending == 0 {
        return;
      }
      sizeRestoresPending := sizeRestoresPending - 1;
      SetCursorSize(Normal);
    }
  }
}
