/**
 * What the gamepad adapter of src/d2rso/input_router.py promises about its trigger axes
 * and its joystick handles: only the two trigger axes make virtual buttons, with hysteresis
 * between the press and release thresholds, so each virtual button alternates press and
 * release starting with a press; reconciling the handles quits the surplus ones last
 * first and initialises the new ones in index order; and a start followed by its stop
 * initialises and quits each library module once when it was not initialised before.
 */
module InputAdaptersLemmas {
  import opened Wrappers
  import opened InputAdapters

  // ---------------------------------------------------------------------------
  // One axis reading

  /** A reading that is not on a trigger axis, or does not convert, changes nothing and signals nothing. */
  lemma OnlyTriggerAxes(latch: map<int, bool>, axis: Option<int>, value: Option<real>)
    requires axis.None? || value.None? || (axis.value != 4 && axis.value != 5)
    ensures AxisStep(latch, axis, value) == AxisOutcome(latch, [])
  {
  }

  /**
   * A reading on a trigger axis signals at most once, for the button of the same number: a
   * press exactly when the button was not latched and the value reached the press threshold,
   * a release exactly when it was latched and the value fell to the release threshold.
   */
  lemma TriggerHysteresis(latch: map<int, bool>, axis: int, value: real)
    requires axis == 4 || axis == 5
    ensures var out := AxisStep(latch, Some(axis), Some(value));
      && |out.signals| <= 1
      && (forall k | 0 <= k < |out.signals| :: out.signals[k].button == axis)
      && (out.signals == [ButtonSignal(axis, true)] <==> !Latched(latch, axis) && value >= 0.5)
      && (out.signals == [ButtonSignal(axis, false)] <==> Latched(latch, axis) && value <= 0.25)
      && Latched(out.latch, axis) == (if out.signals == [] then Latched(latch, axis) else out.signals[0].pressed)
      && (forall b | b != axis :: Latched(out.latch, b) == Latched(latch, b))
  {
  }

  // ---------------------------------------------------------------------------
  // A run of readings

  datatype AxisReading = AxisReading(axis: Option<int>, value: Option<real>)

  /** The latches and all the signals after feeding the readings in order. */
  function AxisRun(latch: map<int, bool>, readings: seq<AxisReading>): AxisOutcome
    decreases |readings|
  {
    if readings == [] then AxisOutcome(latch, [])
    else
      var before := AxisRun(latch, readings[..|readings| - 1]);
      var last := readings[|readings| - 1];
      var step := AxisStep(before.latch, last.axis, last.value);
      AxisOutcome(step.latch, before.signals + step.signals)
  }

  /** The signals for one button, in order. */
  function ForButton(signals: seq<ButtonSignal>, button: int): (r: seq<ButtonSignal>)
    ensures forall k | 0 <= k < |r| :: r[k].button == button
    decreases |signals|
  {
    if signals == [] then []
    else
      var rest := ForButton(signals[..|signals| - 1], button);
      if signals[|signals| - 1].button == button then rest + [signals[|signals| - 1]] else rest
  }

  lemma {:induction false} ForButtonAppend(a: seq<ButtonSignal>, b: seq<ButtonSignal>, button: int)
    ensures ForButton(a + b, button) == ForButton(a, button) + ForButton(b, button)
    decreases |b|
  {
    if b == [] {
      assert a + b == a;
    } else {
      var n := |b| - 1;
      assert (a + b)[..|a + b| - 1] == a + b[..n];
      assert (a + b)[|a + b| - 1] == b[n];
      ForButtonAppend(a, b[..n], button);
      var x := ForButton(a, button);
      var y := ForButton(b[..n], button);
      if b[n].button == button {
        assert (x + y) + [b[n]] == x + (y + [b[n]]);
      }
    }
  }

  /** The signals of one button alternate press and release, starting with a press. */
  predicate Alternates(s: seq<ButtonSignal>) {
    forall k | 0 <= k < |s| :: s[k].pressed == (k % 2 == 0)
  }

  lemma AlternatesSnoc(s: seq<ButtonSignal>, x: ButtonSignal)
    requires Alternates(s) && x.pressed == (|s| % 2 == 0)
    ensures Alternates(s + [x])
  {
    forall k | 0 <= k < |s| + 1
      ensures (s + [x])[k].pressed == (k % 2 == 0)
    {
      if k < |s| {
        assert (s + [x])[k] == s[k];
      }
    }
  }

  /** What one reading adds to a button's signals: nothing, or one signal for that button. */
  lemma StepForButton(latch: map<int, bool>, reading: AxisReading, button: int)
    ensures var step := AxisStep(latch, reading.axis, reading.value);
      || (ForButton(step.signals, button) == [] && Latched(step.latch, button) == Latched(latch, button))
      || (ForButton(step.signals, button) == [ButtonSignal(button, true)] && !Latched(latch, button) && Latched(step.latch, button))
      || (ForButton(step.signals, button) == [ButtonSignal(button, false)] && Latched(latch, button) && !Latched(step.latch, button))
  {
    var step := AxisStep(latch, reading.axis, reading.value);
    if reading.axis.None? || reading.value.None? || (reading.axis.value != 4 && reading.axis.value != 5) {
      OnlyTriggerAxes(latch, reading.axis, reading.value);
    } else {
      TriggerHysteresis(latch, reading.axis.value, reading.value.value);
      if step.signals != [] {
        assert step.signals[..0] == [];
        assert step.signals == [step.signals[0]];
      }
    }
  }

  /** Adding nothing, or the signal that flips the latch, keeps the signals alternating and the latch matching their parity. */
  lemma AlternationStep(latch: map<int, bool>, signals: seq<ButtonSignal>, step: AxisOutcome, button: int)
    requires Alternates(ForButton(signals, button))
    requires Latched(latch, button) <==> |ForButton(signals, button)| % 2 == 1
    requires
      || (ForButton(step.signals, button) == [] && Latched(step.latch, button) == Latched(latch, button))
      || (ForButton(step.signals, button) == [ButtonSignal(button, true)] && !Latched(latch, button) && Latched(step.latch, button))
      || (ForButton(step.signals, button) == [ButtonSignal(button, false)] && Latched(latch, button) && !Latched(step.latch, button))
    ensures Alternates(ForButton(signals + step.signals, button))
    ensures Latched(step.latch, button) <==> |ForButton(signals + step.signals, button)| % 2 == 1
  {
    ForButtonAppend(signals, step.signals, button);
    var added := ForButton(step.signals, button);
    if added != [] {
      AlternatesAppendOne(ForButton(signals, button), added);
    }
  }

  /** One signal whose kind matches the parity keeps the signals alternating. */
  lemma AlternatesAppendOne(before: seq<ButtonSignal>, added: seq<ButtonSignal>)
    requires Alternates(before) && |added| == 1 && added[0].pressed == (|before| % 2 == 0)
    ensures Alternates(before + added) && |before + added| == |before| + 1
  {
    assert added == [added[0]];
    AlternatesSnoc(before, added[0]);
  }

  /**
   * From released triggers, each virtual button's signals alternate press and release,
   * starting with a press, and the button is latched exactly after an odd number of them.
   */
  lemma {:induction false} TriggerSignalsAlternate(readings: seq<AxisReading>, button: int)
    ensures var out := AxisRun(map[], readings);
      && Alternates(ForButton(out.signals, button))
      && (Latched(out.latch, button) <==> |ForButton(out.signals, button)| % 2 == 1)
    decreases |readings|
  {
    if readings != [] {
      var n := |readings| - 1;
      TriggerSignalsAlternate(readings[..n], button);
      var before := AxisRun(map[], readings[..n]);
      StepForButton(before.latch, readings[n], button);
      AlternationStep(before.latch, before.signals, AxisStep(before.latch, readings[n].axis, readings[n].value), button);
    }
  }

  /** Readings 0.49, 0.6, 0.9, 0.2 on axis 4 press and then release button 4, once each. */
  lemma TriggerExample()
    ensures AxisRun(map[], [
      AxisReading(Some(4), Some(0.49)), AxisReading(Some(4), Some(0.6)),
      AxisReading(Some(4), Some(0.9)), AxisReading(Some(4), Some(0.2))
    ]).signals == [ButtonSignal(4, true), ButtonSignal(4, false)]
  {
    var a, b, c, d := AxisReading(Some(4), Some(0.49)), AxisReading(Some(4), Some(0.6)),
      AxisReading(Some(4), Some(0.9)), AxisReading(Some(4), Some(0.2));
    assert TriggerAxisToButton[4] == 4;
    assert !Latched(map[], 4);
    assert [a][..0] == [];
    assert AxisRun(map[], []) == AxisOutcome(map[], []);
    assert AxisStep(map[], Some(4), Some(0.49)) == AxisOutcome(map[], []);
    assert [a, b][..1] == [a];
    assert [a, b, c][..2] == [a, b];
    assert [a, b, c, d][..3] == [a, b, c];
    var s1 := AxisRun(map[], [a]);
    assert s1 == AxisOutcome(map[], []);
    var s2 := AxisRun(map[], [a, b]);
    assert s2 == AxisOutcome(map[4 := true], [ButtonSignal(4, true)]);
    var s3 := AxisRun(map[], [a, b, c]);
    assert s3 == s2;
    var s4 := AxisRun(map[], [a, b, c, d]);
    assert s4.signals == [ButtonSignal(4, true)] + [ButtonSignal(4, false)];
  }

  // ---------------------------------------------------------------------------
  // Joystick handles

  /** Reconciling quits the surplus handles last first: the one at the end goes first. */
  lemma {:induction false} PopQuitsFromEnd(handles: seq<Joystick>, count: nat)
    ensures |PopQuits(handles, count)| == if |handles| > count then |handles| - count else 0
    ensures forall k | 0 <= k < |PopQuits(handles, count)| ::
      PopQuits(handles, count)[k] == JoystickQuit(handles[|handles| - 1 - k])
    decreases |handles|
  {
    if |handles| > count {
      var n := |handles| - 1;
      var init := handles[..n];
      PopQuitsFromEnd(init, count);
      var rest := PopQuits(init, count);
      var r := PopQuits(handles, count);
      assert r == [JoystickQuit(handles[n])] + rest;
      forall k | 0 <= k < |r|
        ensures r[k] == JoystickQuit(handles[|handles| - 1 - k])
      {
        if k > 0 {
          assert r[k] == rest[k - 1] == JoystickQuit(init[|init| - 1 - (k - 1)]);
        }
      }
    }
  }

  /** Reconciling initialises one new handle per new index, in index order. */
  lemma {:induction false} NewInitsInOrder(from: nat, count: nat)
    ensures |NewInits(from, count)| == if count > from then count - from else 0
    ensures forall k | 0 <= k < |NewInits(from, count)| :: NewInits(from, count)[k] == JoystickInit(Joystick(from + k))
    decreases count - from
  {
    if from < count {
      NewInitsInOrder(from + 1, count);
    }
  }

  /** Reconciling either only quits or only initialises: never both in one call. */
  lemma QuitsOrInits(handles: seq<Joystick>, count: nat)
    ensures PopQuits(handles, count) == [] || NewInits(|handles|, count) == []
  {
    PopQuitsFromEnd(handles, count);
    NewInitsInOrder(|handles|, count);
  }

  // ---------------------------------------------------------------------------
  // A start and its stop

  /** The handle calls of a start and its stop are handle initialisations and quits only: no module call is among them. */
  lemma HandleCallsOnly(n: nat)
    ensures forall c | c in NewInits(0, n) + ReverseQuits(Handles(n)) :: c.JoystickInit? || c.JoystickQuit?
    ensures NoModuleCall(NewInits(0, n) + ReverseQuits(Handles(n)))
  {
    NewInitsInOrder(0, n);
    PopQuitsFromEnd(Handles(n), 0);
  }

  predicate NoModuleCall(calls: seq<DeviceCall>) {
    PygameInit !in calls && PygameQuit !in calls && JoystickModuleInit !in calls && JoystickModuleQuit !in calls
  }

  /**
   * Around calls that touch no module, the module initialisations of a start and the quits
   * of what it took contain pygame's `init` and `quit` once when pygame was not initialised
   * before, and neither when it was.
   */
  lemma PygameCallCounts(env: GamepadEnv, handleCalls: seq<DeviceCall>)
    requires NoModuleCall(handleCalls)
    ensures var calls := InitCalls(env) + handleCalls + OwnedQuits(!env.joystickInitialized, !env.pygameInitialized);
      multiset(calls)[PygameInit] == multiset(calls)[PygameQuit] == (if env.pygameInitialized then 0 else 1)
  {
    var calls := InitCalls(env) + handleCalls + OwnedQuits(!env.joystickInitialized, !env.pygameInitialized);
    assert multiset(calls) == multiset(InitCalls(env)) + multiset(handleCalls)
      + multiset(OwnedQuits(!env.joystickInitialized, !env.pygameInitialized));
    assert multiset(handleCalls)[PygameInit] == multiset(handleCalls)[PygameQuit] == 0;
    var k := if env.pygameInitialized then 0 else 1;
    assert multiset(InitCalls(env))[PygameInit] == k && multiset(InitCalls(env))[PygameQuit] == 0;
    assert multiset(OwnedQuits(!env.joystickInitialized, !env.pygameInitialized))[PygameInit] == 0;
    assert multiset(OwnedQuits(!env.joystickInitialized, !env.pygameInitialized))[PygameQuit] == k;
  }

  /** The same for the joystick module. */
  lemma JoystickModuleCallCounts(env: GamepadEnv, handleCalls: seq<DeviceCall>)
    requires NoModuleCall(handleCalls)
    ensures var calls := InitCalls(env) + handleCalls + OwnedQuits(!env.joystickInitialized, !env.pygameInitialized);
      multiset(calls)[JoystickModuleInit] == multiset(calls)[JoystickModuleQuit] == (if env.joystickInitialized then 0 else 1)
  {
    var calls := InitCalls(env) + handleCalls + OwnedQuits(!env.joystickInitialized, !env.pygameInitialized);
    assert multiset(calls) == multiset(InitCalls(env)) + multiset(handleCalls)
      + multiset(OwnedQuits(!env.joystickInitialized, !env.pygameInitialized));
    assert multiset(handleCalls)[JoystickModuleInit] == multiset(handleCalls)[JoystickModuleQuit] == 0;
    var k := if env.joystickInitialized then 0 else 1;
    assert multiset(InitCalls(env))[JoystickModuleInit] == k && multiset(InitCalls(env))[JoystickModuleQuit] == 0;
    assert multiset(OwnedQuits(!env.joystickInitialized, !env.pygameInitialized))[JoystickModuleInit] == 0;
    assert multiset(OwnedQuits(!env.joystickInitialized, !env.pygameInitialized))[JoystickModuleQuit] == k;
  }

  /**
   * A session as the gamepad adapter's tests run one, with the pygame module given: `start`,
   * then `stop` when the start succeeded. Whether the start succeeds, fails at the device
   * count or fails to start its thread, pygame and the joystick module are each initialised
   * once and quit once when they were not initialised before, and left alone when they were;
   * every handle initialised is quit, last first.
   */
  method StartStopSession(env: GamepadEnv) returns (calls: seq<DeviceCall>)
    ensures calls == SessionCalls(env)
    ensures multiset(calls)[PygameInit] == multiset(calls)[PygameQuit] == (if env.pygameInitialized then 0 else 1)
    ensures multiset(calls)[JoystickModuleInit] == multiset(calls)[JoystickModuleQuit] == (if env.joystickInitialized then 0 else 1)
  {
    var adapter := new GamepadAdapter(true);
    var r := adapter.Start(env);
    ghost var started := adapter.deviceCalls;
    if r == Done {
      adapter.Stop();
    }
    calls := adapter.deviceCalls;
    SessionOfStartAndStop(env, r == Done, started, calls);
    SessionCallCounts(env);
  }

  /**
   * The device calls of a session with the pygame module given: the module initialisations,
   * the handles' initialisations and quits unless the device count failed, and the quits of
   * the modules it initialised.
   */
  function SessionCalls(env: GamepadEnv): seq<DeviceCall> {
    var n := Max0(env.joystickCount);
    InitCalls(env) + (if env.fault == CountFails then [] else NewInits(0, n) + ReverseQuits(Handles(n)))
      + OwnedQuits(!env.joystickInitialized, !env.pygameInitialized)
  }

  /** A start on a resolved library, followed by a stop when it succeeded, makes the session's calls. */
  lemma SessionOfStartAndStop(env: GamepadEnv, done: bool, started: seq<DeviceCall>, calls: seq<DeviceCall>)
    requires started == [] + GamepadStartCalls(env, true)
    requires done <==> env.fault != CountFails && env.fault != ThreadFails
    requires done ==> calls == started + ReverseQuits(Handles(Max0(env.joystickCount)))
                                + OwnedQuits(!env.joystickInitialized, !env.pygameInitialized)
    requires !done ==> calls == started
    ensures calls == SessionCalls(env)
  {
  }

  /** A session initialises and quits each module once when it was not initialised before, and neither when it was. */
  lemma SessionCallCounts(env: GamepadEnv)
    ensures var calls := SessionCalls(env);
      && multiset(calls)[PygameInit] == multiset(calls)[PygameQuit] == (if env.pygameInitialized then 0 else 1)
      && multiset(calls)[JoystickModuleInit] == multiset(calls)[JoystickModuleQuit] == (if env.joystickInitialized then 0 else 1)
  {
    var n := Max0(env.joystickCount);
    var handleCalls := if env.fault == CountFails then [] else NewInits(0, n) + ReverseQuits(Handles(n));
    HandleCallsOnly(n);
    PygameCallCounts(env, handleCalls);
    JoystickModuleCallCounts(env, handleCalls);
  }
}
