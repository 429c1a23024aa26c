/**
 * `InputRouter` of src/d2rso/input_router.py: starts its adapters in order and rolls them
 * back in reverse when one fails, stops all of them in reverse order whatever fails, and
 * queues input events only while accepting them. The adapters are abstract: which of them
 * fails to start or stop arrives as a parameter. The worker thread is modelled by a method
 * that takes the next queued event and runs it through the tracker engine.
 */
module Router {
  import opened Wrappers
  import opened InputEvents
  import opened Models
  import opened TrackerEngine

  datatype AdapterCall = StartAdapter(index: nat) | StopAdapter(index: nat)

  datatype StartOutcome = Started | StartFailed(failedAdapter: nat)
  /** How `stop` ended; a failure carries the adapter whose error becomes the cause. */
  datatype StopOutcome = Stopped | StopFailed(cause: nat)

  /** The start calls for adapters `0 .. n-1`, in order. */
  function StartCalls(n: nat): (r: seq<AdapterCall>)
    ensures |r| == n && forall i | 0 <= i < n :: r[i] == StartAdapter(i)
  {
    seq(n, i requires 0 <= i < n => StartAdapter(i))
  }

  /** The stop calls for adapters `n-1` down to `0`. */
  function ReverseStops(n: nat): (r: seq<AdapterCall>)
    ensures |r| == n && forall i | 0 <= i < n :: r[i] == StopAdapter(n - 1 - i)
  {
    seq(n, i requires 0 <= i < n => StopAdapter(n - 1 - i))
  }

  /** The first adapter whose start fails, or the number of adapters when none does. */
  function FirstFailure(fails: seq<bool>): (f: nat)
    ensures f <= |fails|
    ensures forall i | 0 <= i < f :: !fails[i]
    ensures f < |fails| ==> fails[f]
    decreases |fails|
  {
    if fails == [] then 0
    else if fails[0] then 0
    else 1 + FirstFailure(fails[1..])
  }

  /** The last adapter whose stop fails: the first error met when stopping in reverse order. */
  function LastFailure(fails: seq<bool>): (r: Option<nat>)
    ensures r.None? <==> forall i | 0 <= i < |fails| :: !fails[i]
    ensures r.Some? ==> r.value < |fails| && fails[r.value] && forall i | r.value < i < |fails| :: !fails[i]
    decreases |fails|
  {
    if fails == [] then None
    else if fails[|fails| - 1] then Some(|fails| - 1)
    else LastFailure(fails[..|fails| - 1])
  }

  class InputRouter {
    const adapterCount: nat
    const engine: TrackerInputEngine
    var isRunning: bool
    var acceptingEvents: bool
    var hasWorker: bool
    /** The events waiting for the worker, oldest first. */
    var queue: seq<InputEvent>
    /** Every start and stop made on an adapter, in order. */
    var adapterCalls: seq<AdapterCall>

    /** Events are accepted and a worker held exactly while the router runs. */
    predicate Valid()
      reads this
    {
      acceptingEvents == isRunning && hasWorker == isRunning && (!isRunning ==> queue == [])
    }

    constructor (adapterCount: nat, engine: TrackerInputEngine)
      ensures Valid() && !isRunning
      ensures this.adapterCount == adapterCount && this.engine == engine
      ensures queue == [] && adapterCalls == []
    {
      this.adapterCount := adapterCount;
      this.engine := engine;
      isRunning := false;
      acceptingEvents := false;
      hasWorker := false;
      queue := [];
      adapterCalls := [];
    }

    /** `set_skill_items` hands the items to the tracker engine. */
    method SetSkillItems(items: seq<SkillItem>)
      modifies engine
      ensures engine.skillItems == items
    {
      engine.SetSkillItems(items);
    }

    /**
     * `start`: does nothing while running; otherwise starts every adapter in order. When one
     * fails, the ones already started are stopped last first, their failures ignored, the
     * worker is shut down, and the router ends stopped with the failure reported.
     */
    method Start(startFails: seq<bool>) returns (r: StartOutcome)
      requires Valid() && |startFails| == adapterCount
      modifies this`isRunning, this`acceptingEvents, this`hasWorker, this`queue, this`adapterCalls
      ensures Valid()
      ensures old(isRunning) ==> r == Started && isRunning && queue == old(queue) && adapterCalls == old(adapterCalls)
      ensures !old(isRunning) ==> var f := FirstFailure(startFails);
        && queue == []
        && (f == adapterCount ==> r == Started && isRunning && adapterCalls == old(adapterCalls) + StartCalls(adapterCount))
        && (f < adapterCount ==>
              && r == StartFailed(f) && !isRunning
              && adapterCalls == old(adapterCalls) + StartCalls(f + 1) + ReverseStops(f))
    {
      if isRunning {
        return Started;
      }
      queue := [];
      acceptingEvents := true;
      isRunning := true;
      hasWorker := true;
      var i := 0;
      while i < adapterCount
        invariant 0 <= i <= adapterCount && i <= FirstFailure(startFails)
        invariant adapterCalls == old(adapterCalls) + StartCalls(i)
        invariant isRunning && acceptingEvents && hasWorker && queue == []
      {
        adapterCalls := adapterCalls + [StartAdapter(i)];
        if startFails[i] {
          ghost var started := adapterCalls;
          var j := i;
          while j > 0
            invariant 0 <= j <= i
            invariant adapterCalls == started + ReverseStops(i)[..i - j]
          {
            j := j - 1;
            assert ReverseStops(i)[..i - j] == ReverseStops(i)[..i - j - 1] + [StopAdapter(j)];
            adapterCalls := adapterCalls + [StopAdapter(j)];
          }
          assert ReverseStops(i)[..i] == ReverseStops(i);
          assert StartCalls(i + 1) == StartCalls(i) + [StartAdapter(i)];
          ShutdownWorker();
          return StartFailed(i);
        }
        assert StartCalls(i + 1) == StartCalls(i) + [StartAdapter(i)];
        i := i + 1;
      }
      return Started;
    }

    /**
     * `stop`: does nothing while stopped; otherwise stops accepting events, stops every
     * adapter last first whatever fails, shuts the worker down, and reports a failure exactly
     * when some adapter failed, caused by the first error met.
     */
    method Stop(stopFails: seq<bool>) returns (r: StopOutcome)
      requires Valid() && |stopFails| == adapterCount
      modifies this`isRunning, this`acceptingEvents, this`hasWorker, this`queue, this`adapterCalls
      ensures Valid() && !isRunning && queue == []
      ensures !old(isRunning) ==> r == Stopped && adapterCalls == old(adapterCalls)
      ensures old(isRunning) ==>
        && adapterCalls == old(adapterCalls) + ReverseStops(adapterCount)
        && (r == Stopped <==> LastFailure(stopFails).None?)
        && (r.StopFailed? ==> LastFailure(stopFails) == Some(r.cause))
    {
      if !isRunning {
        return Stopped;
      }
      acceptingEvents := false;
      var cause: Option<nat> := None;
      var j := adapterCount;
      while j > 0
        invariant 0 <= j <= adapterCount
        invariant adapterCalls == old(adapterCalls) + ReverseStops(adapterCount)[..adapterCount - j]
        invariant cause.None? <==> forall i | j <= i < adapterCount :: !stopFails[i]
        invariant cause.Some? ==>
          j <= cause.value < adapterCount && stopFails[cause.value] && forall i | cause.value < i < adapterCount :: !stopFails[i]
      {
        j := j - 1;
        assert ReverseStops(adapterCount)[..adapterCount - j]
          == ReverseStops(adapterCount)[..adapterCount - j - 1] + [StopAdapter(j)];
        adapterCalls := adapterCalls + [StopAdapter(j)];
        if stopFails[j] && cause.None? {
          cause := Some(j);
        }
      }
      assert ReverseStops(adapterCount)[..adapterCount] == ReverseStops(adapterCount);
      ShutdownWorker();
      r := if cause.Some? then StopFailed(cause.value) else Stopped;
    }

    /** `_shutdown_worker`: ends the worker, leaves the router stopped and drains the queue. */
    method ShutdownWorker()
      modifies this`isRunning, this`acceptingEvents, this`hasWorker, this`queue
      ensures Valid() && !isRunning && queue == []
    {
      hasWorker := false;
      isRunning := false;
      acceptingEvents := false;
      queue := [];
    }

    /** `route_input_event`: queues the event while accepting events and drops it otherwise. */
    method RouteInputEvent(event: InputEvent)
      modifies this`queue
      ensures queue == if acceptingEvents then old(queue) + [event] else old(queue)
    {
      if !acceptingEvents {
        return;
      }
      queue := queue + [event];
    }

    /**
     * One turn of the worker: takes the oldest queued event, if any, and runs it through the
     * tracker engine, returning it with the items it triggered. The engine's items keep
     * their configuration, and their holds move as `process_event` moves them.
     */
    method DispatchNext() returns (r: Option<(InputEvent, seq<SkillItem>)>)
      modifies this`queue, engine.skillItems
      ensures forall o | o in engine.skillItems :: o.Config() == old(o.Config())
      ensures old(queue) == [] ==> forall o | o in engine.skillItems :: o.selectKeyHeld == old(o.selectKeyHeld)
      ensures old(queue) != [] ==> forall o | o in engine.skillItems ::
        o.selectKeyHeld == HeldAfter(ItemState(o.Config(), old(o.selectKeyHeld)), old(queue)[0])
      ensures old(queue) == [] ==> r.None? && queue == []
      ensures old(queue) != [] ==> queue == old(queue)[1..] && r.Some? && r.value.0 == old(queue)[0]
      ensures old(queue) != [] ==>
        r.value.1 == Pick(engine.skillItems, FiredIndices(old(States(engine.skillItems)), old(queue)[0]))
    {
      if queue == [] {
        return None;
      }
      var event := queue[0];
      queue := queue[1..];
      var triggered := engine.ProcessEvent(event);
      r := Some((event, triggered));
    }
  }
}
