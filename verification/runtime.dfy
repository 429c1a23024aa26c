/**
 * `TrackerRuntimeController` of src/d2rso/tracker_runtime.py: the session that owns the
 * input router and the countdown service. Starting resets every item's hold state, hands
 * the items to the router and makes a fresh service, rolling all of that back when the
 * router fails to start; stopping always clears the router's items, the hold states and the
 * service; triggered items refresh their countdowns. The Qt signal that carries a trigger
 * payload to the main thread is a plain call here; the time of a trigger is a parameter.
 */
module Runtime {
  import opened Wrappers
  import opened Models
  import opened TrackerEngine
  import opened Router
  import opened Countdown

  /** `_reset_skill_sequence_state`: disarms every item and changes nothing else about it. */
  method ResetSkillSequenceState(items: seq<SkillItem>)
    modifies items
    ensures forall o | o in items :: !o.selectKeyHeld && o.Config() == old(o.Config())
  {
    for k := 0 to |items|
      invariant forall j | 0 <= j < k :: !items[j].selectKeyHeld
      invariant forall o | o in items :: o.Config() == old(o.Config())
    {
      items[k].ResetKeys();
    }
  }

  /** `max(0.0, value)` */
  function NonNegative(x: real): (r: real)
    ensures r >= 0.0 && r >= x && (r == x || r == 0.0)
  {
    if x > 0.0 then x else 0.0
  }

  /** The payload `_on_router_triggered` builds: each item's id with its duration, never negative, in order. */
  function TriggerPayload(items: seq<SkillItem>): (r: seq<(int, real)>)
    reads items
    ensures |r| == |items|
    ensures forall k | 0 <= k < |items| :: r[k] == (items[k].id, NonNegative(items[k].timeLength))
  {
    seq(|items|, k requires 0 <= k < |items| reads items => (items[k].id, NonNegative(items[k].timeLength)))
  }

  /** The timer table after one refresh with a duration that is never negative. */
  function AfterRefresh(ts: seq<Timer>, skillId: int, duration: real, now: real): seq<Timer> {
    if duration == 0.0 then Without(ts, skillId) else Upsert(ts, Scheduled(skillId, duration, now))
  }

  /** The timer table after refreshing every payload row in order. */
  function AfterRefreshAll(ts: seq<Timer>, payload: seq<(int, real)>, now: real): seq<Timer>
    decreases |payload|
  {
    if payload == [] then ts
    else
      var n := |payload| - 1;
      AfterRefresh(AfterRefreshAll(ts, payload[..n], now), payload[n].0, NonNegative(payload[n].1), now)
  }

  class TrackerRuntimeController {
    const router: InputRouter
    var countdownService: CountdownService?
    var skillItems: seq<SkillItem>

    predicate Valid()
      reads this, router, if countdownService != null then {countdownService} else {}
    {
      router.Valid() && (countdownService != null ==> countdownService.Valid())
    }

    constructor (router: InputRouter)
      requires router.Valid()
      ensures Valid() && this.router == router && countdownService == null && skillItems == []
    {
      this.router := router;
      countdownService := null;
      skillItems := [];
    }

    /** `set_skill_items`: keeps the items, and hands them to the router only while it runs. */
    method SetSkillItems(items: seq<SkillItem>)
      modifies this`skillItems, router.engine
      ensures skillItems == items
      ensures router.isRunning ==> router.engine.skillItems == items
      ensures !router.isRunning ==> router.engine.skillItems == old(router.engine.skillItems)
    {
      skillItems := items;
      if router.isRunning {
        router.SetSkillItems(skillItems);
      }
    }

    /**
     * `start`: takes the new items if given. While running with a service, returns that same
     * service. Otherwise disarms every item, hands the items to the router, makes a fresh
     * service and starts the router; if the router fails, empties its items, disarms the
     * items again, drops the service and reports the failure.
     */
    method Start(items: Option<seq<SkillItem>>, routerStartFails: seq<bool>) returns (r: Result<CountdownService, StartOutcome>)
      requires Valid() && |routerStartFails| == router.adapterCount
      modifies this, router, router.engine, skillItems, if items.Some? then items.value else []
      ensures Valid()
      ensures skillItems == if items.Some? then items.value else old(skillItems)
      ensures old(router.isRunning) && old(countdownService) != null ==>
        && r == Ok(old(countdownService)) && countdownService == old(countdownService) && router.isRunning
        && router.engine.skillItems == (if items.Some? then items.value else old(router.engine.skillItems))
        && (forall o | o in skillItems :: o.selectKeyHeld == old(o.selectKeyHeld) && o.Config() == old(o.Config()))
      ensures !(old(router.isRunning) && old(countdownService) != null) ==>
        && (forall o | o in skillItems :: !o.selectKeyHeld && o.Config() == old(o.Config()))
        && (r.Err? <==> !old(router.isRunning) && FirstFailure(routerStartFails) < router.adapterCount)
        && (r.Ok? ==>
              fresh(r.value) && countdownService == r.value && r.value.timers == [] && router.isRunning
              && router.engine.skillItems == skillItems)
        && (r.Err? ==>
              countdownService == null && !router.isRunning && router.engine.skillItems == []
              && r.error == StartFailed(FirstFailure(routerStartFails)))
    {
      if items.Some? {
        SetSkillItems(items.value);
      }
      if router.isRunning && countdownService != null {
        return Ok(countdownService);
      }
      r := Launch(routerStartFails);
    }

    /** The part of `start` after the early return: a fresh service, and rollback on failure. */
    method Launch(routerStartFails: seq<bool>) returns (r: Result<CountdownService, StartOutcome>)
      requires router.Valid() && |routerStartFails| == router.adapterCount
      modifies this`countdownService, router, router.engine, skillItems
      ensures Valid()
      ensures forall o | o in skillItems :: !o.selectKeyHeld && o.Config() == old(o.Config())
      ensures r.Err? <==> !old(router.isRunning) && FirstFailure(routerStartFails) < router.adapterCount
      ensures r.Ok? ==>
        fresh(r.value) && countdownService == r.value && r.value.timers == [] && router.isRunning
        && router.engine.skillItems == skillItems
      ensures r.Err? ==>
        countdownService == null && !router.isRunning && router.engine.skillItems == []
        && r.error == StartFailed(FirstFailure(routerStartFails))
    {
      ResetSkillSequenceState(skillItems);
      router.SetSkillItems(skillItems);
      var service := new CountdownService();
      countdownService := service;
      var outcome := router.Start(routerStartFails);
      if outcome.StartFailed? {
        router.SetSkillItems([]);
        ResetSkillSequenceState(skillItems);
        countdownService := null;
        return Err(outcome);
      }
      return Ok(service);
    }

    /**
     * `stop`: stops the router if it runs, and whatever that does empties the router's items,
     * disarms every item and drops the service, then reports the router's failure if any.
     */
    method Stop(routerStopFails: seq<bool>) returns (r: StopOutcome)
      requires Valid() && |routerStopFails| == router.adapterCount
      modifies this, router, router.engine, skillItems
      ensures Valid()
      ensures countdownService == null && !router.isRunning && router.engine.skillItems == []
      ensures skillItems == old(skillItems)
      ensures forall o | o in skillItems :: !o.selectKeyHeld && o.Config() == old(o.Config())
      ensures !old(router.isRunning) ==> r == Stopped
      ensures old(router.isRunning) ==>
        (r == Stopped <==> LastFailure(routerStopFails).None?) && (r.StopFailed? ==> LastFailure(routerStopFails) == Some(r.cause))
    {
      r := Stopped;
      if router.isRunning {
        r := router.Stop(routerStopFails);
      }
      router.SetSkillItems([]);
      ResetSkillSequenceState(skillItems);
      countdownService := null;
    }

    /**
     * `_on_router_triggered`: the payload of the triggered items, or nothing to emit when
     * there are none.
     */
    method OnRouterTriggered(items: seq<SkillItem>) returns (r: Option<seq<(int, real)>>)
      ensures items == [] <==> r.None?
      ensures r.Some? ==> r.value == TriggerPayload(items)
    {
      var payload: seq<(int, real)> := [];
      for k := 0 to |items|
        invariant payload == TriggerPayload(items[..k])
      {
        payload := payload + [(items[k].id, NonNegative(items[k].timeLength))];
      }
      assert items[..|items|] == items;
      if payload == [] {
        return None;
      }
      return Some(payload);
    }

    /**
     * `_handle_triggered_skills`: ignored without a service; otherwise refreshes each row's
     * countdown in order, with its duration never negative.
     */
    method HandleTriggeredSkills(payload: seq<(int, real)>, now: real)
      requires Valid()
      modifies if countdownService != null then {countdownService} else {}
      ensures Valid()
      ensures countdownService != null ==>
        countdownService.timers == AfterRefreshAll(old(countdownService.timers), payload, now)
    {
      if countdownService == null {
        return;
      }
      var service := countdownService;
      for k := 0 to |payload|
        invariant service.Valid()
        invariant service.timers == AfterRefreshAll(old(service.timers), payload[..k], now)
      {
        assert payload[..k + 1][..k] == payload[..k];
        var (skillId, duration) := payload[k];
        var _ := service.Refresh(skillId, NonNegative(duration), now);
      }
      assert payload[..|payload|] == payload;
    }
  }
}
