// The game object: the stack of screens with its lifecycle calls
// (OnEnter / OnExit / OnPause / OnResume), dispatch of events, updates and
// drawing to the top screen only, the capped frame delta time over SDL's
// 32-bit millisecond ticks, and the once-a-second FPS counter.
//
// Screens are identified by their kind and an instance number; what a
// screen does inside its own callbacks belongs to its own module.
module GameLoop {
  import opened Common
  import Input

  datatype ScreenKind = AuthChoiceScreen | HomeScreen | PlayScreen | MenuScreen

  datatype Screen = Screen(kind: ScreenKind, instance: nat)

  /** The lifecycle calls the game makes on its screens, in order. */
  datatype Lifecycle = Entered(screen: Screen) | Exited(screen: Screen) | Paused(screen: Screen) | Resumed(screen: Screen)

  /** The events SDL hands the game loop. */
  datatype SdlEvent = QuitEvent | ResizeEvent(width: int, height: int) | KeyDownEvent(key: int) | OtherEvent

  /** The per-frame calls the game makes on a screen. */
  datatype Call = HandleEventCall(event: SdlEvent) | UpdateCall(deltaTime: real) | RenderCall | RenderUICall

  datatype Dispatch = Dispatch(target: Screen, call: Call)

  /** What one turn of the main loop reads from SDL: the tick count and the pending events. */
  datatype Frame = Frame(now: int, events: seq<SdlEvent>)

  const DeltaCap: real := 0.05
  const FpsInterval: int := 1000

  // ---------------------------------------------------------------------
  // The screen stack (the last element is the top)
  // ---------------------------------------------------------------------

  function Top(stack: seq<Screen>): Screen
    requires stack != []
  {
    stack[|stack| - 1]
  }

  function Popped(stack: seq<Screen>): (r: seq<Screen>)
    ensures stack != [] ==> |r| == |stack| - 1
  {
    if stack == [] then [] else stack[..|stack| - 1]
  }

  /** The calls PushState makes: pause the old top, if any, then enter the new one. */
  function PushCalls(stack: seq<Screen>, s: Screen): seq<Lifecycle>
  {
    (if stack == [] then [] else [Paused(Top(stack))]) + [Entered(s)]
  }

  /** The calls PopState makes: exit the top, then resume the one below, if any. */
  function PopCalls(stack: seq<Screen>): seq<Lifecycle>
  {
    if stack == [] then []
    else [Exited(Top(stack))] + (if |stack| >= 2 then [Resumed(stack[|stack| - 2])] else [])
  }

  /** The calls ChangeState makes: exit the top, if any, then enter the new one. */
  function ChangeCalls(stack: seq<Screen>, s: Screen): seq<Lifecycle>
  {
    (if stack == [] then [] else [Exited(Top(stack))]) + [Entered(s)]
  }

  /** The stack after one lifecycle call: entering pushes, exiting pops, pausing and resuming leave it as it is. */
  function Step(stack: seq<Screen>, call: Lifecycle): seq<Screen>
  {
    match call
    case Entered(s) => stack + [s]
    case Exited(_) => Popped(stack)
    case Paused(_) => stack
    case Resumed(_) => stack
  }

  /** The stack that a record of lifecycle calls describes, starting from the given one. */
  function Replay(stack: seq<Screen>, calls: seq<Lifecycle>): seq<Screen>
  {
    if calls == [] then stack else Step(Replay(stack, calls[..|calls| - 1]), calls[|calls| - 1])
  }

  lemma {:induction false} ReplayAppend(stack: seq<Screen>, a: seq<Lifecycle>, b: seq<Lifecycle>)
    ensures Replay(stack, a + b) == Replay(Replay(stack, a), b)
    decreases |b|
  {
    if b == [] {
      assert a + b == a;
    } else {
      assert (a + b)[..|a + b| - 1] == a + b[..|b| - 1];
      ReplayAppend(stack, a, b[..|b| - 1]);
    }
  }

  lemma ReplayTwo(stack: seq<Screen>, c: Lifecycle, d: Lifecycle)
    ensures Replay(stack, [c]) == Step(stack, c)
    ensures Replay(stack, [c, d]) == Step(Step(stack, c), d)
  {
    assert [c, d][..1] == [c];
    assert [c][..0] == [];
  }

  /** The calls PushState makes describe the stack with the new screen on top. */
  lemma PushCallsReplay(stack: seq<Screen>, s: Screen)
    ensures Replay(stack, PushCalls(stack, s)) == stack + [s]
  {
    if stack != [] { ReplayTwo(stack, Paused(Top(stack)), Entered(s)); } else { ReplayTwo(stack, Entered(s), Entered(s)); }
  }

  /** The calls PopState makes describe the stack without its top. */
  lemma PopCallsReplay(stack: seq<Screen>)
    ensures Replay(stack, PopCalls(stack)) == Popped(stack)
  {
    if |stack| >= 2 {
      ReplayTwo(stack, Exited(Top(stack)), Resumed(stack[|stack| - 2]));
    } else if stack != [] {
      ReplayTwo(stack, Exited(Top(stack)), Exited(Top(stack)));
    }
  }

  /** The calls ChangeState makes describe the stack with its top replaced (or the new screen alone). */
  lemma ChangeCallsReplay(stack: seq<Screen>, s: Screen)
    ensures Replay(stack, ChangeCalls(stack, s)) == Popped(stack) + [s]
  {
    if stack != [] { ReplayTwo(stack, Exited(Top(stack)), Entered(s)); } else { ReplayTwo(stack, Entered(s), Entered(s)); }
  }

  /**
   * Pushing and then popping a screen gives the stack back, and the
   * screen below sees a pause before and a resume after the pushed
   * screen's whole lifetime.
   */
  lemma PushThenPop(stack: seq<Screen>, s: Screen)
    ensures Popped(stack + [s]) == stack
    ensures stack != [] ==>
      PushCalls(stack, s) + PopCalls(stack + [s]) == [Paused(Top(stack)), Entered(s), Exited(s), Resumed(Top(stack))]
    ensures stack == [] ==> PushCalls(stack, s) + PopCalls(stack + [s]) == [Entered(s), Exited(s)]
  {
    assert (stack + [s])[..|stack|] == stack;
    if stack != [] {
      assert (stack + [s])[|stack + [s]| - 2] == Top(stack);
    }
  }

  /**
   * Changing the screen is popping and pushing without the resume and pause
   * of the screen in between: the stacks agree, and on a stack of at most
   * one screen the calls agree too.
   */
  lemma ChangeIsPopThenPush(stack: seq<Screen>, s: Screen)
    ensures |Popped(stack) + [s]| == (if stack == [] then 1 else |stack|)
    ensures |stack| <= 1 ==> ChangeCalls(stack, s) == PopCalls(stack) + PushCalls(Popped(stack), s)
    ensures |stack| >= 2 ==>
      PopCalls(stack) + PushCalls(Popped(stack), s) ==
      [Exited(Top(stack)), Resumed(stack[|stack| - 2]), Paused(stack[|stack| - 2]), Entered(s)] &&
      ChangeCalls(stack, s) == [Exited(Top(stack)), Entered(s)]
  {
    if |stack| >= 2 {
      assert Top(Popped(stack)) == stack[|stack| - 2];
    }
  }

  // ---------------------------------------------------------------------
  // Dispatch to the top screen
  // ---------------------------------------------------------------------

  /** One call per element, all to the top screen; nothing when the stack is empty. */
  function EventDispatches(stack: seq<Screen>, events: seq<SdlEvent>): (r: seq<Dispatch>)
    ensures stack == [] ==> r == []
    ensures stack != [] ==> |r| == |events|
  {
    if stack == [] || events == [] then []
    else EventDispatches(stack, events[..|events| - 1]) + [Dispatch(Top(stack), HandleEventCall(events[|events| - 1]))]
  }

  lemma {:induction false} EventDispatchesGoToTop(stack: seq<Screen>, events: seq<SdlEvent>)
    requires stack != []
    ensures forall i :: 0 <= i < |events| ==>
      EventDispatches(stack, events)[i] == Dispatch(Top(stack), HandleEventCall(events[i]))
  {
    if events != [] {
      EventDispatchesGoToTop(stack, events[..|events| - 1]);
    }
  }

  /** The calls one Update or Render makes: only the top screen is called. */
  function TopDispatch(stack: seq<Screen>, calls: seq<Call>): (r: seq<Dispatch>)
    ensures stack == [] ==> r == []
    ensures stack != [] ==> |r| == |calls| && forall i :: 0 <= i < |r| ==> r[i] == Dispatch(Top(stack), calls[i])
  {
    if stack == [] then [] else seq(|calls|, i requires 0 <= i < |calls| => Dispatch(Top(stack), calls[i]))
  }

  /** Whether a batch of events holds a quit request. */
  predicate HasQuit(events: seq<SdlEvent>)
  {
    exists i :: 0 <= i < |events| && events[i] == QuitEvent
  }

  /** The window size after a batch of events: the last resize wins. */
  function SizeAfter(events: seq<SdlEvent>, width: int, height: int): (int, int)
  {
    if events == [] then (width, height)
    else match events[|events| - 1]
      case ResizeEvent(w, h) => (w, h)
      case _ => SizeAfter(events[..|events| - 1], width, height)
  }

  // ---------------------------------------------------------------------
  // Frame timing
  // ---------------------------------------------------------------------

  /** The frame's delta time in seconds for the ticks elapsed, capped at 0.05. */
  function CappedDelta(elapsedMs: nat): (r: real)
  {
    var seconds := elapsedMs as real / 1000.0;
    if seconds > DeltaCap then DeltaCap else seconds
  }

  lemma CappedDeltaBounds(elapsedMs: nat)
    ensures 0.0 <= CappedDelta(elapsedMs) <= DeltaCap
    ensures elapsedMs <= 50 ==> CappedDelta(elapsedMs) == elapsedMs as real / 1000.0
    ensures elapsedMs > 50 ==> CappedDelta(elapsedMs) == DeltaCap
  {
  }

  /**
   * When the 32-bit tick counter wraps between two frames, the unsigned
   * subtraction still yields the true elapsed time.
   */
  lemma DeltaAcrossWrapAround(last: int, now: int)
    requires IsUint32(last) && IsUint32(now) && now < last
    ensures SubUint32(now, last) == now + Uint32Modulus - last
    ensures now + Uint32Modulus - last <= 50 ==>
      CappedDelta(SubUint32(now, last)) == (now + Uint32Modulus - last) as real / 1000.0
  {
  }

  // ---------------------------------------------------------------------
  // The game
  // ---------------------------------------------------------------------

  class Game {
    var states: seq<Screen>
    /** Every lifecycle call made on a screen, oldest first. */
    var lifecycle: seq<Lifecycle>
    /** Every per-frame call made on a screen, oldest first. */
    var dispatched: seq<Dispatch>
    var running: bool
    var screenWidth: int
    var screenHeight: int
    var fullscreen: bool
    /** The window-mode switches made through SDL, oldest first. */
    var windowModes: seq<bool>
    var lastFrameTime: int
    var deltaTime: real
    var frameCount: int
    var fpsTimer: int
    var fps: real
    const input: Input.InputState

    /** The lifecycle record describes the stack, and the tick fields are 32-bit values. */
    predicate Valid()
      reads this
    {
      Replay([], lifecycle) == states && IsUint32(lastFrameTime) && IsUint32(fpsTimer)
    }

    constructor()
      ensures Valid() && states == [] && lifecycle == [] && dispatched == []
      ensures !running && !fullscreen && screenWidth == 1280 && screenHeight == 720
      ensures lastFrameTime == 0 && deltaTime == 0.0 && frameCount == 0 && fpsTimer == 0 && fps == 0.0
      ensures windowModes == [] && fresh(input)
    {
      states, lifecycle, dispatched := [], [], [];
      running, fullscreen := false, false;
      screenWidth, screenHeight := 1280, 720;
      windowModes := [];
      lastFrameTime, deltaTime, frameCount, fpsTimer, fps := 0, 0.0, 0, 0, 0.0;
      input := new Input.InputState();
    }

    /** Pauses the old top, if any, pushes the screen and enters it. */
    method PushState(s: Screen)
      requires Valid()
      modifies this`states, this`lifecycle
      ensures Valid()
      ensures states == old(states) + [s] && lifecycle == old(lifecycle) + PushCalls(old(states), s)
    {
      if states != [] {
        lifecycle := lifecycle + [Paused(Top(states))];
      }
      ReplayAppend([], old(lifecycle), PushCalls(old(states), s));
      PushCallsReplay(old(states), s);
      states := states + [s];
      lifecycle := lifecycle + [Entered(s)];
    }

    /** Exits and pops the top and resumes the screen below; an empty stack is left alone. */
    method PopState()
      requires Valid()
      modifies this`states, this`lifecycle
      ensures Valid()
      ensures states == Popped(old(states)) && lifecycle == old(lifecycle) + PopCalls(old(states))
    {
      ReplayAppend([], old(lifecycle), PopCalls(old(states)));
      PopCallsReplay(old(states));
      if states != [] {
        lifecycle := lifecycle + [Exited(Top(states))];
        states := states[..|states| - 1];
        if states != [] {
          lifecycle := lifecycle + [Resumed(Top(states))];
        }
      }
    }

    /** Exits and pops the top, if any, then pushes the screen and enters it. */
    method ChangeState(s: Screen)
      requires Valid()
      modifies this`states, this`lifecycle
      ensures Valid()
      ensures states == Popped(old(states)) + [s] && lifecycle == old(lifecycle) + ChangeCalls(old(states), s)
    {
      ReplayAppend([], old(lifecycle), ChangeCalls(old(states), s));
      ChangeCallsReplay(old(states), s);
      if states != [] {
        lifecycle := lifecycle + [Exited(Top(states))];
        states := states[..|states| - 1];
      }
      states := states + [s];
      lifecycle := lifecycle + [Entered(s)];
    }

    /** Start-up after SDL and ImGui are ready: the sign-in screen becomes the first screen, and the clocks start. */
    method Initialize(now: int, instance: nat)
      requires Valid() && IsUint32(now)
      modifies this`states, this`lifecycle, this`running, this`lastFrameTime, this`fpsTimer
      ensures Valid() && running && lastFrameTime == now && fpsTimer == now
      ensures states == old(states) + [Screen(AuthChoiceScreen, instance)]
      ensures lifecycle == old(lifecycle) + PushCalls(old(states), Screen(AuthChoiceScreen, instance))
    {
      PushState(Screen(AuthChoiceScreen, instance));
      running := true;
      lastFrameTime := now;
      fpsTimer := now;
    }

    /** Empties the stack without exiting any screen. */
    method Shutdown()
      requires Valid()
      modifies this`states
      ensures states == [] && lifecycle == old(lifecycle)
      ensures Replay([], lifecycle) == old(states)
    {
      while states != []
        decreases |states|
      {
        states := states[..|states| - 1];
      }
    }

    method SetFullscreen(on: bool)
      modifies this`fullscreen, this`windowModes
      ensures fullscreen == on
      ensures old(fullscreen) == on ==> windowModes == old(windowModes)
      ensures old(fullscreen) != on ==> windowModes == old(windowModes) + [on]
    {
      if fullscreen == on {
        return;
      }
      fullscreen := on;
      windowModes := windowModes + [on];
    }

    /** The frame's delta time from the tick count, capped at 0.05 seconds. */
    method CalculateDeltaTime(now: int)
      requires IsUint32(now) && IsUint32(lastFrameTime)
      modifies this`deltaTime, this`lastFrameTime
      ensures deltaTime == CappedDelta(SubUint32(now, old(lastFrameTime))) && lastFrameTime == now
      ensures 0.0 <= deltaTime <= DeltaCap
    {
      deltaTime := SubUint32(now, lastFrameTime) as real / 1000.0;
      lastFrameTime := now;
      if deltaTime > DeltaCap {
        deltaTime := DeltaCap;
      }
    }

    /** Counts the frame; once a second has passed, takes the rate and starts counting again. */
    method UpdateFPS(now: int)
      requires IsUint32(now) && IsUint32(fpsTimer)
      modifies this`frameCount, this`fps, this`fpsTimer
      ensures SubUint32(now, old(fpsTimer)) >= FpsInterval ==>
        frameCount == 0 && fpsTimer == now &&
        fps == (old(frameCount) + 1) as real * 1000.0 / SubUint32(now, old(fpsTimer)) as real
      ensures SubUint32(now, old(fpsTimer)) < FpsInterval ==>
        frameCount == old(frameCount) + 1 && fpsTimer == old(fpsTimer) && fps == old(fps)
    {
      frameCount := frameCount + 1;
      var elapsed := SubUint32(now, fpsTimer);
      if elapsed >= FpsInterval {
        fps := frameCount as real * 1000.0 / elapsed as real;
        frameCount := 0;
        fpsTimer := now;
      }
    }

    /**
     * Drains the pending events: a quit request stops the game, a resize
     * records the new size, and every event goes to the top screen only.
     */
    method HandleEvents(events: seq<SdlEvent>)
      modifies this`running, this`screenWidth, this`screenHeight, this`dispatched
      ensures running == (old(running) && !HasQuit(events))
      ensures (screenWidth, screenHeight) == SizeAfter(events, old(screenWidth), old(screenHeight))
      ensures dispatched == old(dispatched) + EventDispatches(states, events)
    {
      var i := 0;
      while i < |events|
        invariant 0 <= i <= |events|
        invariant running == (old(running) && !HasQuit(events[..i]))
        invariant (screenWidth, screenHeight) == SizeAfter(events[..i], old(screenWidth), old(screenHeight))
        invariant dispatched == old(dispatched) + EventDispatches(states, events[..i])
      {
        var e := events[i];
        assert events[..i + 1] == events[..i] + [e];
        if e == QuitEvent {
          running := false;
        } else if e.ResizeEvent? {
          screenWidth, screenHeight := e.width, e.height;
        }
        input.HandleEvent();
        if states != [] {
          dispatched := dispatched + [Dispatch(Top(states), HandleEventCall(e))];
        }
        i := i + 1;
      }
      assert events[..i] == events;
    }

    /** The input's frame ends, then only the top screen is updated. */
    method Update(dt: real)
      modifies this`dispatched, input`keysPrev, input`mouseButtonsPrev
      ensures input.keysPrev == input.keys && input.mouseButtonsPrev == input.mouseButtons
      ensures dispatched == old(dispatched) + TopDispatch(states, [UpdateCall(dt)])
    {
      input.Update();
      if states != [] {
        dispatched := dispatched + [Dispatch(Top(states), UpdateCall(dt))];
      }
    }

    /** Only the top screen draws, first its scene and then its UI. */
    method Render()
      modifies this`dispatched
      ensures dispatched == old(dispatched) + TopDispatch(states, [RenderCall, RenderUICall])
    {
      if states != [] {
        dispatched := dispatched + [Dispatch(Top(states), RenderCall)];
      }
      if states != [] {
        dispatched := dispatched + [Dispatch(Top(states), RenderUICall)];
      }
    }

    /**
     * The main loop over the frames SDL delivers: it runs while the game is
     * running and a screen is on the stack, and each frame's delta time
     * stays within the cap.
     */
    method Run(frames: seq<Frame>) returns (framesRun: nat)
      requires Valid()
      requires forall i :: 0 <= i < |frames| ==> IsUint32(frames[i].now)
      modifies this`running, this`screenWidth, this`screenHeight, this`dispatched, this`deltaTime,
               this`lastFrameTime, this`frameCount, this`fps, this`fpsTimer,
               input`keysPrev, input`mouseButtonsPrev
      ensures Valid() && states == old(states)
      ensures framesRun <= |frames|
      ensures framesRun < |frames| ==> !running || states == []
      ensures old(running) && states != [] && framesRun == 0 ==> |frames| == 0
      ensures 0.0 <= deltaTime <= DeltaCap || (framesRun == 0 && deltaTime == old(deltaTime))
    {
      framesRun := 0;
      while running && states != [] && framesRun < |frames|
        invariant framesRun <= |frames|
        invariant framesRun == 0 ==> running == old(running)
        decreases |frames| - framesRun
        invariant Valid() && states == old(states)
        invariant 0.0 <= deltaTime <= DeltaCap || (framesRun == 0 && deltaTime == old(deltaTime))
      {
        var frame := frames[framesRun];
        CalculateDeltaTime(frame.now);
        UpdateFPS(frame.now);
        HandleEvents(frame.events);
        Update(deltaTime);
        Render();
        framesRun := framesRun + 1;
      }
    }
  }
}
