/**
 * The device adapters of src/d2rso/input_router.py, their sequential parts: the keyboard and
 * mouse adapters around an abstract listener whose start, stop and join may fail, and the
 * gamepad adapter's runtime (joystick handles, initialisation ownership, the trigger-axis
 * latch). Threads, polling and the device libraries are abstract: what they would decide
 * (a failure, a joystick count, an axis reading) arrives as a parameter.
 */
module InputAdapters {
  import opened Wrappers

  /** How an adapter call ended: normally, or by raising. */
  datatype Outcome = Done | Raised

  // ---------------------------------------------------------------------------
  // Keyboard and mouse adapters

  /** A listener made by the listener factory, with the failures its calls will have. */
  datatype Listener = Listener(id: nat, startFails: bool, stopFails: bool, joinFails: bool)

  datatype ListenerCall = ListenerStart(id: nat) | ListenerStop(id: nat) | ListenerJoin(id: nat)

  /** The calls `_stop_listener` makes: stop, then join. */
  function StopListenerCalls(l: Listener): seq<ListenerCall> {
    [ListenerStop(l.id), ListenerJoin(l.id)]
  }

  /** Whether `_stop_listener` raises: only unsuppressed, and when stop or join failed. */
  predicate StopListenerRaises(l: Listener, suppressExceptions: bool) {
    !suppressExceptions && (l.stopFails || l.joinFails)
  }

  /**
   * `KeyboardInputAdapter` and `MouseInputAdapter`, whose `start` and `stop` are the same
   * code over different listeners.
   */
  class ListenerAdapter {
    var isRunning: bool
    var listener: Option<Listener>
    /** Every call made on a listener, in order. */
    var listenerCalls: seq<ListenerCall>

    predicate Valid()
      reads this
    {
      isRunning <==> listener.Some?
    }

    constructor ()
      ensures Valid() && !isRunning && listenerCalls == []
    {
      isRunning := false;
      listener := None;
      listenerCalls := [];
    }

    /**
     * `start`: does nothing while running; otherwise starts the new listener, and if that
     * fails stops it (suppressing its errors), stays stopped and raises.
     */
    method Start(made: Listener) returns (r: Outcome)
      requires Valid()
      modifies this
      ensures Valid()
      ensures old(isRunning) ==> r == Done && isRunning && listener == old(listener) && listenerCalls == old(listenerCalls)
      ensures !old(isRunning) && made.startFails ==>
        && r == Raised && !isRunning
        && listenerCalls == old(listenerCalls) + [ListenerStart(made.id)] + StopListenerCalls(made)
      ensures !old(isRunning) && !made.startFails ==>
        && r == Done && isRunning && listener == Some(made)
        && listenerCalls == old(listenerCalls) + [ListenerStart(made.id)]
    {
      if isRunning {
        return Done;
      }
      listenerCalls := listenerCalls + [ListenerStart(made.id)];
      if made.startFails {
        var _ := StopListener(made, true);
        return Raised;
      }
      listener := Some(made);
      isRunning := true;
      return Done;
    }

    /**
     * `stop`: does nothing while stopped; otherwise forgets the listener, marks the adapter
     * stopped, and then stops the listener, raising if that fails.
     */
    method Stop() returns (r: Outcome)
      requires Valid()
      modifies this
      ensures Valid() && !isRunning
      ensures !old(isRunning) ==> r == Done && listenerCalls == old(listenerCalls)
      ensures old(isRunning) ==>
        && listenerCalls == old(listenerCalls) + StopListenerCalls(old(listener).value)
        && (r == Raised <==> StopListenerRaises(old(listener).value, false))
    {
      if !isRunning {
        return Done;
      }
      var current := listener;
      listener := None;
      isRunning := false;
      if current.None? {
        return Done;
      }
      r := StopListener(current.value, false);
    }

    /** `_stop_listener` on a listener of this adapter. */
    method StopListener(l: Listener, suppressExceptions: bool) returns (r: Outcome)
      modifies this`listenerCalls
      ensures listenerCalls == old(listenerCalls) + StopListenerCalls(l)
      ensures r == Raised <==> StopListenerRaises(l, suppressExceptions)
    {
      var pending := false;
      listenerCalls := listenerCalls + [ListenerStop(l.id)];
      if l.stopFails && !suppressExceptions {
        pending := true;
      }
      listenerCalls := listenerCalls + [ListenerJoin(l.id)];
      if l.joinFails && !pending && !suppressExceptions {
        pending := true;
      }
      r := if pending then Raised else Done;
    }
  }

  // ---------------------------------------------------------------------------
  // Trigger axes

  /** `_GAMEPAD_TRIGGER_AXIS_TO_BUTTON` */
  const TriggerAxisToButton: map<int, int> := map[4 := 4, 5 := 5]
  /** `_GAMEPAD_TRIGGER_PRESS_THRESHOLD` */
  const TriggerPressThreshold: real := 0.5
  /** `_GAMEPAD_TRIGGER_RELEASE_THRESHOLD` */
  const TriggerReleaseThreshold: real := 0.25

  /** A button press or release the adapter hands on for normalisation. */
  datatype ButtonSignal = ButtonSignal(button: int, pressed: bool)

  /** The latch states and the signals after one axis reading. */
  datatype AxisOutcome = AxisOutcome(latch: map<int, bool>, signals: seq<ButtonSignal>)

  function Latched(latch: map<int, bool>, button: int): bool {
    if button in latch then latch[button] else false
  }

  /**
   * One axis reading: `None` stands for an axis or value that does not convert to a number.
   * A trigger axis presses its virtual button when unlatched at or above the press
   * threshold, and releases it when latched at or below the release threshold.
   */
  function AxisStep(latch: map<int, bool>, axis: Option<int>, value: Option<real>): AxisOutcome {
    if axis.None? || value.None? || axis.value !in TriggerAxisToButton then AxisOutcome(latch, [])
    else
      var button := TriggerAxisToButton[axis.value];
      var isPressed := Latched(latch, button);
      if !isPressed && value.value >= TriggerPressThreshold then
        AxisOutcome(latch[button := true], [ButtonSignal(button, true)])
      else if isPressed && value.value <= TriggerReleaseThreshold then
        AxisOutcome(latch[button := false], [ButtonSignal(button, false)])
      else AxisOutcome(latch, [])
  }

  // ---------------------------------------------------------------------------
  // Gamepad adapter

  /** A joystick handle, made for its device index. */
  datatype Joystick = Joystick(index: nat)

  datatype DeviceCall =
    | JoystickInit(j: Joystick) | JoystickQuit(j: Joystick)
    | JoystickModuleInit | JoystickModuleQuit | PygameInit | PygameQuit

  /** Where starting the gamepad adapter can fail in this model. */
  datatype StartFault = NoFault | ResolveFails | CountFails | ThreadFails

  /** What the gamepad library and the thread factory do during `start`. */
  datatype GamepadEnv = GamepadEnv(pygameInitialized: bool, joystickInitialized: bool, joystickCount: int, fault: StartFault)

  function Max0(n: int): nat {
    if n > 0 then n else 0
  }

  /** The quit calls for the handles popped from the end, down to `count` handles. */
  function PopQuits(handles: seq<Joystick>, count: nat): seq<DeviceCall>
    decreases |handles|
  {
    if |handles| <= count then []
    else [JoystickQuit(handles[|handles| - 1])] + PopQuits(handles[..|handles| - 1], count)
  }

  /** The init calls for new handles `from` up to `count`, in index order. */
  function NewInits(from: nat, count: nat): seq<DeviceCall>
    decreases count - from
  {
    if from >= count then [] else [JoystickInit(Joystick(from))] + NewInits(from + 1, count)
  }

  /** The quit calls `_cleanup_runtime` makes for the handles, last first. */
  function ReverseQuits(handles: seq<Joystick>): seq<DeviceCall> {
    PopQuits(handles, 0)
  }

  /** The handles for devices `0 .. n-1`. */
  function Handles(n: nat): seq<Joystick> {
    seq(n, i requires 0 <= i < n => Joystick(i))
  }

  /** The module initialisations `_initialize_runtime` makes: each module not yet initialised, pygame first. */
  function InitCalls(env: GamepadEnv): seq<DeviceCall> {
    (if !env.pygameInitialized then [PygameInit] else [])
      + (if !env.joystickInitialized then [JoystickModuleInit] else [])
  }

  /** The module quits `_cleanup_runtime` makes: the joystick module, then pygame, each only when owned. */
  function OwnedQuits(ownsJoystickInit: bool, ownsPygameInit: bool): seq<DeviceCall> {
    (if ownsJoystickInit then [JoystickModuleQuit] else []) + (if ownsPygameInit then [PygameQuit] else [])
  }

  /**
   * The device calls of `start` on a stopped adapter: nothing when the library cannot be
   * resolved; otherwise the module initialisations, then the handle initialisations unless
   * the device count fails; and when the start fails after the initialisations, the
   * clean-up's quits of everything it took.
   */
  function GamepadStartCalls(env: GamepadEnv, resolved: bool): seq<DeviceCall> {
    var n := Max0(env.joystickCount);
    var taken := OwnedQuits(!env.joystickInitialized, !env.pygameInitialized);
    if env.fault == ResolveFails && !resolved then []
    else if env.fault == CountFails then InitCalls(env) + taken
    else if env.fault == ThreadFails then InitCalls(env) + NewInits(0, n) + ReverseQuits(Handles(n)) + taken
    else InitCalls(env) + NewInits(0, n)
  }

  /** A start that fails after resolving the library quits, in its clean-up, the handles and modules it took. */
  lemma AbortedStartCalls(env: GamepadEnv, resolvedBefore: bool, resolvedAfter: bool, initDone: bool,
                          start: seq<DeviceCall>, taken: seq<DeviceCall>, held: seq<Joystick>, final: seq<DeviceCall>)
    requires resolvedAfter == (resolvedBefore || env.fault != ResolveFails)
    requires initDone <==> resolvedAfter && env.fault != CountFails
    requires !initDone ==> held == [] && (resolvedAfter ==> taken == start + InitCalls(env))
    requires initDone ==> env.fault == ThreadFails && held == Handles(Max0(env.joystickCount))
    requires initDone ==> taken == start + InitCalls(env) + NewInits(0, Max0(env.joystickCount))
    requires !resolvedAfter ==> final == start
    requires resolvedAfter ==> final == taken + ReverseQuits(held) + OwnedQuits(!env.joystickInitialized, !env.pygameInitialized)
    ensures final == start + GamepadStartCalls(env, resolvedBefore)
  {
    assert ReverseQuits([]) == [];
  }

  /** A start that does not fail makes the module initialisations and then one handle initialisation per device. */
  lemma CompletedStartCalls(env: GamepadEnv, resolved: bool)
    requires !(env.fault == ResolveFails && !resolved) && env.fault != CountFails && env.fault != ThreadFails
    ensures GamepadStartCalls(env, resolved) == InitCalls(env) + NewInits(0, Max0(env.joystickCount))
  {
  }

  /** `GamepadInputAdapter` */
  class GamepadAdapter {
    var isRunning: bool
    var hasThread: bool
    var stopRequested: bool
    /** Whether `_pygame_module` has been resolved. */
    var pygameResolved: bool
    var joysticks: seq<Joystick>
    var ownsPygameInit: bool
    var ownsJoystickInit: bool
    var axisButtonStates: map<int, bool>
    /** Every button press and release handed to `_emit_normalized`, in order. */
    var signals: seq<ButtonSignal>
    /** Every call made on the gamepad library, in order. */
    var deviceCalls: seq<DeviceCall>

    /** A stopped adapter holds no thread, no handles and no initialisation. */
    predicate Idle()
      reads this
    {
      !hasThread && joysticks == [] && !ownsPygameInit && !ownsJoystickInit
    }

    /** Each handle sits at its own device index; a running adapter has resolved the library; a stopped one is idle. */
    predicate Valid()
      reads this
    {
      && (forall i | 0 <= i < |joysticks| :: joysticks[i].index == i)
      && (isRunning ==> pygameResolved)
      && (!isRunning ==> Idle())
    }

    constructor (pygameGiven: bool)
      ensures Valid() && !isRunning && pygameResolved == pygameGiven
      ensures axisButtonStates == map[] && signals == [] && deviceCalls == []
    {
      isRunning := false;
      hasThread := false;
      stopRequested := false;
      pygameResolved := pygameGiven;
      joysticks := [];
      ownsPygameInit := false;
      ownsJoystickInit := false;
      axisButtonStates := map[];
      signals := [];
      deviceCalls := [];
    }

    /** `_handle_axis_motion` */
    method HandleAxisMotion(axis: Option<int>, value: Option<real>)
      modifies this`axisButtonStates, this`signals
      ensures axisButtonStates == AxisStep(old(axisButtonStates), axis, value).latch
      ensures signals == old(signals) + AxisStep(old(axisButtonStates), axis, value).signals
    {
      if axis.None? || value.None? {
        return;
      }
      if axis.value !in TriggerAxisToButton {
        return;
      }
      var virtualButton := TriggerAxisToButton[axis.value];
      var isPressed := if virtualButton in axisButtonStates then axisButtonStates[virtualButton] else false;
      if !isPressed && value.value >= TriggerPressThreshold {
        axisButtonStates := axisButtonStates[virtualButton := true];
        signals := signals + [ButtonSignal(virtualButton, true)];
        return;
      }
      if isPressed && value.value <= TriggerReleaseThreshold {
        axisButtonStates := axisButtonStates[virtualButton := false];
        signals := signals + [ButtonSignal(virtualButton, false)];
      }
    }

    /**
     * `_refresh_joysticks`: pops and quits surplus handles from the end, then makes,
     * initialises and appends a handle for each new index, so that one handle per
     * connected device is held and the existing ones are kept.
     */
    method RefreshJoysticks(count: int)
      requires forall i | 0 <= i < |joysticks| :: joysticks[i].index == i
      modifies this`joysticks, this`deviceCalls
      ensures |joysticks| == Max0(count)
      ensures forall i | 0 <= i < |joysticks| :: joysticks[i] == Joystick(i)
      ensures |old(joysticks)| <= Max0(count) ==> joysticks[..|old(joysticks)|] == old(joysticks)
      ensures |old(joysticks)| >= Max0(count) ==> joysticks == old(joysticks)[..Max0(count)]
      ensures deviceCalls == old(deviceCalls) + PopQuits(old(joysticks), Max0(count)) + NewInits(|old(joysticks)|, Max0(count))
    {
      var target := Max0(count);
      PopJoysticks(target);
      ghost var kept := joysticks;
      AppendJoysticks(target);
      forall i | 0 <= i < |joysticks|
        ensures joysticks[i] == Joystick(i)
      {
        if i < |kept| {
          assert joysticks[i] == kept[i] == old(joysticks)[i];
        }
      }
      if |old(joysticks)| >= target {
        assert kept == joysticks;
      }
    }

    /** The first loop of `_refresh_joysticks`: quits and drops handles from the end down to `target`. */
    method PopJoysticks(target: nat)
      modifies this`joysticks, this`deviceCalls
      ensures |joysticks| == if |old(joysticks)| > target then target else |old(joysticks)|
      ensures joysticks == old(joysticks)[..|joysticks|]
      ensures deviceCalls == old(deviceCalls) + PopQuits(old(joysticks), target)
    {
      while |joysticks| > target
        invariant |joysticks| <= |old(joysticks)|
        invariant |joysticks| < |old(joysticks)| ==> target <= |joysticks|
        invariant joysticks == old(joysticks)[..|joysticks|]
        invariant deviceCalls + PopQuits(joysticks, target) == old(deviceCalls) + PopQuits(old(joysticks), target)
        decreases |joysticks|
      {
        var joystick := joysticks[|joysticks| - 1];
        var rest := joysticks[..|joysticks| - 1];
        assert PopQuits(joysticks, target) == [JoystickQuit(joystick)] + PopQuits(rest, target);
        joysticks := rest;
        deviceCalls := deviceCalls + [JoystickQuit(joystick)];
      }
    }

    /** The second loop of `_refresh_joysticks`: initialises and appends the handles from the current count up to `target`. */
    method AppendJoysticks(target: nat)
      requires |joysticks| <= target
      modifies this`joysticks, this`deviceCalls
      ensures |joysticks| == target
      ensures joysticks[..|old(joysticks)|] == old(joysticks)
      ensures forall i | |old(joysticks)| <= i < |joysticks| :: joysticks[i] == Joystick(i)
      ensures deviceCalls == old(deviceCalls) + NewInits(|old(joysticks)|, target)
    {
      ghost var kept := |joysticks|;
      for index := |joysticks| to target
        invariant |joysticks| == index
        invariant joysticks[..kept] == old(joysticks)
        invariant forall i | kept <= i < index :: joysticks[i] == Joystick(i)
        invariant deviceCalls + NewInits(index, target) == old(deviceCalls) + NewInits(kept, target)
      {
        var joystick := Joystick(index);
        assert NewInits(index, target) == [JoystickInit(joystick)] + NewInits(index + 1, target);
        deviceCalls := deviceCalls + [JoystickInit(joystick)];
        joysticks := joysticks + [joystick];
        assert joysticks[..kept] == old(joysticks);
      }
    }

    /**
     * `_cleanup_runtime`: once the library is resolved, quits every handle last first,
     * drops them, quits the library modules this adapter initialised, and clears the
     * ownership flags and the axis latches.
     */
    method CleanupRuntime()
      modifies this`joysticks, this`deviceCalls, this`ownsPygameInit, this`ownsJoystickInit, this`axisButtonStates
      ensures !pygameResolved ==>
        && joysticks == old(joysticks) && deviceCalls == old(deviceCalls)
        && ownsPygameInit == old(ownsPygameInit) && ownsJoystickInit == old(ownsJoystickInit)
        && axisButtonStates == old(axisButtonStates)
      ensures pygameResolved ==>
        && joysticks == [] && !ownsPygameInit && !ownsJoystickInit && axisButtonStates == map[]
        && deviceCalls == old(deviceCalls) + ReverseQuits(old(joysticks)) + OwnedQuits(old(ownsJoystickInit), old(ownsPygameInit))
    {
      if !pygameResolved {
        return;
      }
      var k := |joysticks|;
      assert joysticks[..k] == joysticks;
      while k > 0
        invariant 0 <= k <= |joysticks|
        invariant joysticks == old(joysticks) && ownsPygameInit == old(ownsPygameInit) && ownsJoystickInit == old(ownsJoystickInit)
        invariant deviceCalls + ReverseQuits(joysticks[..k]) == old(deviceCalls) + ReverseQuits(old(joysticks))
        decreases k
      {
        assert joysticks[..k][..k - 1] == joysticks[..k - 1];
        assert ReverseQuits(joysticks[..k]) == [JoystickQuit(joysticks[k - 1])] + ReverseQuits(joysticks[..k - 1]);
        deviceCalls := deviceCalls + [JoystickQuit(joysticks[k - 1])];
        k := k - 1;
      }
      assert joysticks[..0] == [];
      assert ReverseQuits([]) == [];
      assert deviceCalls == old(deviceCalls) + ReverseQuits(old(joysticks));
      joysticks := [];
      if ownsJoystickInit {
        deviceCalls := deviceCalls + [JoystickModuleQuit];
      }
      if ownsPygameInit {
        deviceCalls := deviceCalls + [PygameQuit];
      }
      ownsPygameInit := false;
      ownsJoystickInit := false;
      axisButtonStates := map[];
    }

    /**
     * `_initialize_runtime` up to the point of failure: clears the latches, resolves the
     * library, initialises what is not yet initialised (taking ownership of it) and
     * reconciles the handles with the device count.
     */
    method InitializeRuntime(env: GamepadEnv) returns (r: Outcome)
      requires forall i | 0 <= i < |joysticks| :: joysticks[i].index == i
      modifies this`axisButtonStates, this`pygameResolved, this`ownsPygameInit, this`ownsJoystickInit,
        this`deviceCalls, this`joysticks
      ensures forall i | 0 <= i < |joysticks| :: joysticks[i].index == i
      ensures axisButtonStates == map[]
      ensures r == Raised <==> (env.fault == ResolveFails && !old(pygameResolved)) || env.fault == CountFails
      ensures pygameResolved == (old(pygameResolved) || env.fault != ResolveFails)
      ensures !pygameResolved ==>
        && joysticks == old(joysticks) && deviceCalls == old(deviceCalls)
        && ownsPygameInit == old(ownsPygameInit) && ownsJoystickInit == old(ownsJoystickInit)
      ensures pygameResolved ==>
        && ownsPygameInit == (old(ownsPygameInit) || !env.pygameInitialized)
        && ownsJoystickInit == (old(ownsJoystickInit) || !env.joystickInitialized)
      ensures pygameResolved && r == Raised ==> joysticks == old(joysticks) && deviceCalls == old(deviceCalls) + InitCalls(env)
      ensures r == Done ==>
        && pygameResolved && |joysticks| == Max0(env.joystickCount)
        && (forall i | 0 <= i < |joysticks| :: joysticks[i] == Joystick(i))
        && deviceCalls == old(deviceCalls) + InitCalls(env)
             + PopQuits(old(joysticks), Max0(env.joystickCount)) + NewInits(|old(joysticks)|, Max0(env.joystickCount))
      ensures r == Done && old(joysticks) == [] ==>
        joysticks == Handles(Max0(env.joystickCount)) && deviceCalls == old(deviceCalls) + InitCalls(env) + NewInits(0, Max0(env.joystickCount))
    {
      axisButtonStates := map[];
      if !pygameResolved {
        if env.fault == ResolveFails {
          return Raised;
        }
        pygameResolved := true;
      }
      InitModules(env);
      if env.fault == CountFails {
        return Raised;
      }
      RefreshJoysticks(env.joystickCount);
      assert PopQuits([], Max0(env.joystickCount)) == [];
      if old(joysticks) == [] {
        assert joysticks == Handles(Max0(env.joystickCount));
      }
      return Done;
    }

    /** The middle of `_initialize_runtime`: initialises pygame and its joystick module when they are not yet initialised, and takes ownership of them. */
    method InitModules(env: GamepadEnv)
      modifies this`deviceCalls, this`ownsPygameInit, this`ownsJoystickInit
      ensures ownsPygameInit == (old(ownsPygameInit) || !env.pygameInitialized)
      ensures ownsJoystickInit == (old(ownsJoystickInit) || !env.joystickInitialized)
      ensures deviceCalls == old(deviceCalls) + InitCalls(env)
    {
      if !env.pygameInitialized {
        deviceCalls := deviceCalls + [PygameInit];
        ownsPygameInit := true;
      }
      if !env.joystickInitialized {
        deviceCalls := deviceCalls + [JoystickModuleInit];
        ownsJoystickInit := true;
      }
    }

    /**
     * `start`: does nothing while running; otherwise initialises the runtime and starts the
     * polling thread, and if either fails drops the thread, requests a stop, cleans the
     * runtime up and raises, staying stopped and idle.
     */
    method Start(env: GamepadEnv) returns (r: Outcome)
      requires Valid()
      modifies this
      ensures Valid()
      ensures old(isRunning) ==> r == Done && isRunning && joysticks == old(joysticks) && deviceCalls == old(deviceCalls)
      ensures !old(isRunning) ==>
        (r == Raised <==> (env.fault == ResolveFails && !old(pygameResolved)) || env.fault == CountFails || env.fault == ThreadFails)
      ensures !old(isRunning) && r == Raised ==> !isRunning && Idle() && stopRequested && axisButtonStates == map[]
      ensures !old(isRunning) && r == Done ==> isRunning && hasThread && !stopRequested && joysticks == Handles(Max0(env.joystickCount))
      ensures !old(isRunning) && r == Done ==>
        ownsPygameInit == !env.pygameInitialized && ownsJoystickInit == !env.joystickInitialized
      ensures !old(isRunning) ==> deviceCalls == old(deviceCalls) + GamepadStartCalls(env, old(pygameResolved))
      ensures signals == old(signals)
    {
      if isRunning {
        return Done;
      }
      r := Launch(env);
    }

    /** The part of `start` after its early return, on a stopped adapter. */
    method Launch(env: GamepadEnv) returns (r: Outcome)
      requires Valid() && !isRunning
      modifies this`isRunning, this`hasThread, this`stopRequested, this`pygameResolved, this`joysticks,
        this`ownsPygameInit, this`ownsJoystickInit, this`axisButtonStates, this`deviceCalls
      ensures Valid()
      ensures r == Raised <==> (env.fault == ResolveFails && !old(pygameResolved)) || env.fault == CountFails || env.fault == ThreadFails
      ensures r == Raised ==> !isRunning && Idle() && stopRequested && axisButtonStates == map[]
      ensures r == Done ==> isRunning && hasThread && !stopRequested && joysticks == Handles(Max0(env.joystickCount))
      ensures r == Done ==> ownsPygameInit == !env.pygameInitialized && ownsJoystickInit == !env.joystickInitialized
      ensures deviceCalls == old(deviceCalls) + GamepadStartCalls(env, old(pygameResolved))
      ensures signals == old(signals)
    {
      assert joysticks == [] && !ownsPygameInit && !ownsJoystickInit;
      stopRequested := false;
      var init := InitializeRuntime(env);
      ghost var held := joysticks;
      ghost var taken := deviceCalls;
      if init == Raised || env.fault == ThreadFails {
        AbortStart();
        AbortedStartCalls(env, old(pygameResolved), pygameResolved, init == Done, old(deviceCalls), taken, held, deviceCalls);
        return Raised;
      }
      CompletedStartCalls(env, old(pygameResolved));
      isRunning := true;
      hasThread := true;
      return Done;
    }

    /** The `except` branch of `start`: drops the thread, requests a stop and cleans the runtime up. */
    method AbortStart()
      modifies this`isRunning, this`hasThread, this`stopRequested, this`joysticks,
        this`ownsPygameInit, this`ownsJoystickInit, this`axisButtonStates, this`deviceCalls
      ensures !isRunning && !hasThread && stopRequested
      ensures !pygameResolved ==>
        && joysticks == old(joysticks) && deviceCalls == old(deviceCalls)
        && ownsPygameInit == old(ownsPygameInit) && ownsJoystickInit == old(ownsJoystickInit)
        && axisButtonStates == old(axisButtonStates)
      ensures pygameResolved ==>
        && joysticks == [] && !ownsPygameInit && !ownsJoystickInit && axisButtonStates == map[]
        && deviceCalls == old(deviceCalls) + ReverseQuits(old(joysticks)) + OwnedQuits(old(ownsJoystickInit), old(ownsPygameInit))
    {
      isRunning := false;
      hasThread := false;
      stopRequested := true;
      CleanupRuntime();
    }

    /** `stop`: does nothing while stopped; otherwise requests a stop, drops the thread and cleans the runtime up. */
    method Stop()
      requires Valid()
      modifies this
      ensures Valid() && !isRunning && Idle()
      ensures !old(isRunning) ==> deviceCalls == old(deviceCalls) && axisButtonStates == old(axisButtonStates)
      ensures old(isRunning) ==>
        && stopRequested && axisButtonStates == map[]
        && deviceCalls == old(deviceCalls) + ReverseQuits(old(joysticks)) + OwnedQuits(old(ownsJoystickInit), old(ownsPygameInit))
      ensures signals == old(signals)
    {
      if !isRunning {
        return;
      }
      isRunning := false;
      stopRequested := true;
      hasThread := false;
      CleanupRuntime();
    }
  }
}
