/**
 * The countdown service of src/d2rso/countdown_service.py: one timer per skill id, kept in
 * the order the ids were first scheduled, a list of subscribers, and the events delivered
 * to them. Times are exact reals; the service's clock is read by the caller and passed in.
 */
module Countdown {
  import opened Wrappers

  datatype EventType = Updated | Removed

  /** `CountdownEvent` */
  datatype CountdownEvent = CountdownEvent(kind: EventType, skillId: int, duration: real, remaining: real, completed: bool)

  /** `ActiveCountdown`: a read-only snapshot of one timer. */
  datatype ActiveCountdown = ActiveCountdown(skillId: int, duration: real, startedAt: real, endsAt: real, remaining: real)

  /** `_CountdownState` */
  datatype Timer = Timer(skillId: int, duration: real, startedAt: real, endsAt: real)

  /** The `ValueError` `refresh` raises for a negative duration. */
  datatype CountdownError = NegativeDuration

  /** One event handed to one subscriber; subscribers are told apart by a number. */
  datatype Delivery = Delivery(subscriber: nat, event: CountdownEvent)

  // ---------------------------------------------------------------------------
  // One timer

  /** `_CountdownState.remaining_seconds`: the time left, never below zero. */
  function Remaining(t: Timer, now: real): (r: real)
    ensures r >= 0.0
    ensures r == 0.0 <==> t.endsAt <= now
  {
    if t.endsAt - now > 0.0 then t.endsAt - now else 0.0
  }

  /** A timer (re)started at `now`: the new `_CountdownState`, or the fields `_CountdownState.refresh` sets. */
  function Scheduled(skillId: int, duration: real, now: real): Timer {
    Timer(skillId, duration, now, now + duration)
  }

  /** `_build_updated_event` */
  function UpdatedEvent(t: Timer, now: real): CountdownEvent {
    CountdownEvent(Updated, t.skillId, t.duration, Remaining(t, now), false)
  }

  /** The removal event of a timer that ran out. */
  function CompletedEvent(t: Timer): CountdownEvent {
    CountdownEvent(Removed, t.skillId, t.duration, 0.0, true)
  }

  /** The snapshot `get_active` and `list_active` build. */
  function Snapshot(t: Timer, now: real): ActiveCountdown {
    ActiveCountdown(t.skillId, t.duration, t.startedAt, t.endsAt, Remaining(t, now))
  }

  /** What the service keeps of every timer: a positive duration, and the end it implies. */
  predicate WellFormed(t: Timer) {
    t.duration > 0.0 && t.endsAt == t.startedAt + t.duration
  }

  /** `_validate_duration` */
  function ValidateDuration(duration: real): (r: Result<real, CountdownError>)
    ensures r.Ok? <==> duration >= 0.0
    ensures r.Ok? ==> r.value == duration
  {
    if duration < 0.0 then Err(NegativeDuration) else Ok(duration)
  }

  // ---------------------------------------------------------------------------
  // The timer table, in insertion order

  /** At most one timer per skill id. */
  predicate UniqueIds(ts: seq<Timer>) {
    forall i, j | 0 <= i < j < |ts| :: ts[i].skillId != ts[j].skillId
  }

  /** The ids with a timer. */
  predicate HasTimer(ts: seq<Timer>, skillId: int) {
    exists i | 0 <= i < |ts| :: ts[i].skillId == skillId
  }

  /** `_states.get(skill_id)` */
  function Find(ts: seq<Timer>, skillId: int): (r: Option<Timer>)
    ensures r.Some? <==> HasTimer(ts, skillId)
    ensures r.Some? ==> r.value in ts && r.value.skillId == skillId
  {
    var i := IndexOf(ts, skillId);
    if i < |ts| then Some(ts[i]) else None
  }

  /** The position of the first timer for `skillId`, or the length when there is none. */
  function IndexOf(ts: seq<Timer>, skillId: int): (i: nat)
    ensures i <= |ts|
    ensures i < |ts| ==> ts[i].skillId == skillId
    ensures forall j | 0 <= j < i :: ts[j].skillId != skillId
  {
    if ts == [] then 0
    else if ts[0].skillId == skillId then 0
    else 1 + IndexOf(ts[1..], skillId)
  }

  /** `_states.pop(skill_id, None)`: the table without that id's timer. */
  function Without(ts: seq<Timer>, skillId: int): seq<Timer> {
    if ts == [] then []
    else (if ts[0].skillId == skillId then [] else [ts[0]]) + Without(ts[1..], skillId)
  }

  /**
   * `_states[skill_id] = timer`: a timer for an id already present replaces it where it
   * stands, a new id goes to the end.
   */
  function Upsert(ts: seq<Timer>, t: Timer): seq<Timer> {
    var i := IndexOf(ts, t.skillId);
    if i < |ts| then ts[i := t] else ts + [t]
  }

  /** The event `emit_updates` reports for one timer. */
  function TickEvent(t: Timer, now: real): CountdownEvent {
    if Remaining(t, now) <= 0.0 then CompletedEvent(t) else UpdatedEvent(t, now)
  }

  /** The events of `emit_updates`: one per timer, in table order. */
  function TickEvents(ts: seq<Timer>, now: real): (r: seq<CountdownEvent>)
    ensures |r| == |ts| && forall i | 0 <= i < |ts| :: r[i] == TickEvent(ts[i], now)
  {
    seq(|ts|, i requires 0 <= i < |ts| => TickEvent(ts[i], now))
  }

  /** The timers `emit_updates` keeps: those with time left, in table order. */
  function Survivors(ts: seq<Timer>, now: real): seq<Timer> {
    if ts == [] then []
    else
      var n := |ts| - 1;
      Survivors(ts[..n], now) + (if Remaining(ts[n], now) > 0.0 then [ts[n]] else [])
  }

  // ---------------------------------------------------------------------------
  // Ordering for list_active

  predicate SortedById(ts: seq<Timer>) {
    forall i, j | 0 <= i < j < |ts| :: ts[i].skillId < ts[j].skillId
  }

  /** Inserts a timer into a list sorted by id, before the first larger id. */
  function InsertById(t: Timer, sorted: seq<Timer>): (r: seq<Timer>)
    ensures multiset(r) == multiset(sorted) + multiset{t}
  {
    if sorted == [] then [t]
    else if t.skillId < sorted[0].skillId then [t] + sorted
    else
      assert sorted == [sorted[0]] + sorted[1..];
      [sorted[0]] + InsertById(t, sorted[1..])
  }

  /** `sorted(self._states.items())`: the timers ordered by skill id (ids are unique, so the timers themselves are never compared). */
  function SortById(ts: seq<Timer>): (r: seq<Timer>)
    ensures multiset(r) == multiset(ts)
  {
    if ts == [] then []
    else
      assert ts == [ts[0]] + ts[1..];
      InsertById(ts[0], SortById(ts[1..]))
  }

  /** The snapshots of a list of timers, in its order. */
  function Snapshots(ts: seq<Timer>, now: real): (r: seq<ActiveCountdown>)
    ensures |r| == |ts| && forall i | 0 <= i < |ts| :: r[i] == Snapshot(ts[i], now)
  {
    seq(|ts|, i requires 0 <= i < |ts| => Snapshot(ts[i], now))
  }

  // ---------------------------------------------------------------------------
  // Subscribers

  predicate NoDuplicates(s: seq<nat>) {
    forall i, j | 0 <= i < j < |s| :: s[i] != s[j]
  }

  /** `list.remove`: drops the first occurrence. */
  function RemoveFirst(s: seq<nat>, x: nat): seq<nat> {
    if s == [] then []
    else if s[0] == x then s[1..]
    else [s[0]] + RemoveFirst(s[1..], x)
  }

  /** `_emit` of one event: every subscriber once, in subscription order. */
  function Deliveries(subscribers: seq<nat>, event: CountdownEvent): (r: seq<Delivery>)
    ensures |r| == |subscribers| && forall i | 0 <= i < |r| :: r[i] == Delivery(subscribers[i], event)
  {
    seq(|subscribers|, i requires 0 <= i < |subscribers| => Delivery(subscribers[i], event))
  }

  /** `_emit` of several events in turn. */
  function DeliverAll(subscribers: seq<nat>, events: seq<CountdownEvent>): seq<Delivery> {
    if events == [] then []
    else
      var n := |events| - 1;
      DeliverAll(subscribers, events[..n]) + Deliveries(subscribers, events[n])
  }

  // ---------------------------------------------------------------------------
  // The service

  /** `CountdownService` */
  class CountdownService {
    var timers: seq<Timer>
    var subscribers: seq<nat>
    /** Every event handed to a subscriber so far, in order. */
    var delivered: seq<Delivery>

    /** One timer per id, each well formed, and no subscriber twice. */
    predicate Valid()
      reads this
    {
      UniqueIds(timers) && (forall t | t in timers :: WellFormed(t)) && NoDuplicates(subscribers)
    }

    constructor ()
      ensures Valid()
      ensures timers == [] && subscribers == [] && delivered == []
    {
      timers := [];
      subscribers := [];
      delivered := [];
    }

    /** `subscribe`: appends a subscriber not yet registered. */
    method Subscribe(callback: nat)
      requires Valid()
      modifies this`subscribers
      ensures Valid()
      ensures subscribers == if callback in old(subscribers) then old(subscribers) else old(subscribers) + [callback]
    {
      if callback !in subscribers {
        subscribers := subscribers + [callback];
      }
    }

    /** `unsubscribe` */
    method Unsubscribe(callback: nat)
      requires Valid()
      modifies this`subscribers
      ensures Valid()
      ensures subscribers == RemoveFirst(old(subscribers), callback)
    {
      if callback in subscribers {
        RemoveFirstKeepsOthers(subscribers, callback);
        subscribers := RemoveFirst(subscribers, callback);
      }
      else {
        RemoveFirstAbsent(subscribers, callback);
      }
    }

    /** `active_count` */
    function ActiveCount(): nat
      reads this
    {
      |timers|
    }

    /** `_emit`: hands the event to every subscriber, in subscription order. */
    method Emit(event: CountdownEvent)
      modifies this`delivered
      ensures delivered == old(delivered) + Deliveries(subscribers, event)
    {
      var callbacks := subscribers;
      for k := 0 to |callbacks|
        invariant delivered == old(delivered) + Deliveries(callbacks[..k], event)
      {
        assert Deliveries(callbacks[..k + 1], event) == Deliveries(callbacks[..k], event) + [Delivery(callbacks[k], event)];
        delivered := delivered + [Delivery(callbacks[k], event)];
      }
      assert callbacks[..|callbacks|] == callbacks;
    }

    /**
     * `refresh`: a negative duration is refused before anything changes; zero removes the
     * id's timer and reports it completed; a positive duration (re)starts the id's timer at
     * `now` and reports the full duration left.
     */
    method Refresh(skillId: int, duration: real, now: real) returns (r: Result<CountdownEvent, CountdownError>)
      requires Valid()
      modifies this`timers, this`delivered
      ensures Valid()
      ensures duration < 0.0 ==> r == Err(NegativeDuration) && timers == old(timers) && delivered == old(delivered)
      ensures duration == 0.0 ==>
        && r == Ok(CountdownEvent(Removed, skillId, 0.0, 0.0, true))
        && timers == Without(old(timers), skillId)
        && delivered == old(delivered) + Deliveries(subscribers, r.value)
      ensures duration > 0.0 ==>
        && r == Ok(UpdatedEvent(Scheduled(skillId, duration, now), now))
        && timers == Upsert(old(timers), Scheduled(skillId, duration, now))
        && delivered == old(delivered) + Deliveries(subscribers, r.value)
    {
      var validated := ValidateDuration(duration);
      if validated.Err? {
        return Err(validated.error);
      }
      var d := validated.value;
      if d == 0.0 {
        WithoutKeepsUnique(timers, skillId);
        timers := Without(timers, skillId);
        var event := CountdownEvent(Removed, skillId, 0.0, 0.0, true);
        Emit(event);
        return Ok(event);
      }
      var t := Scheduled(skillId, d, now);
      UpsertKeepsUnique(timers, t);
      timers := Upsert(timers, t);
      var event := UpdatedEvent(t, now);
      Emit(event);
      return Ok(event);
    }

    /**
     * `remove`: nothing happens for an id without a timer; otherwise the timer goes and the
     * event reports no time left when `completed`, else the time that was left.
     */
    method Remove(skillId: int, completed: bool, now: real) returns (r: Option<CountdownEvent>)
      requires Valid()
      modifies this`timers, this`delivered
      ensures Valid()
      ensures Find(old(timers), skillId).None? ==> r == None && timers == old(timers) && delivered == old(delivered)
      ensures Find(old(timers), skillId).Some? ==>
        var t := Find(old(timers), skillId).value;
        && r == Some(CountdownEvent(Removed, skillId, t.duration, if completed then 0.0 else Remaining(t, now), completed))
        && timers == Without(old(timers), skillId)
        && delivered == old(delivered) + Deliveries(subscribers, r.value)
    {
      var state := Find(timers, skillId);
      if state.None? {
        return None;
      }
      WithoutKeepsUnique(timers, skillId);
      timers := Without(timers, skillId);
      var event := CountdownEvent(Removed, skillId, state.value.duration,
                                  if completed then 0.0 else Remaining(state.value, now), completed);
      Emit(event);
      return Some(event);
    }

    /**
     * `emit_updates`: one event per timer present at the call, in table order; timers with
     * no time left are dropped and reported completed, the others reported with their time
     * left; the events are then delivered in that order.
     */
    method EmitUpdates(now: real) returns (events: seq<CountdownEvent>)
      requires Valid()
      modifies this`timers, this`delivered
      ensures Valid()
      ensures events == TickEvents(old(timers), now)
      ensures timers == Survivors(old(timers), now)
      ensures delivered == old(delivered) + DeliverAll(subscribers, events)
    {
      events := TickTimers(now);
      SurvivorsKeepValid(old(timers), now);
      EmitAll(events);
    }

    /**
     * The first loop of `emit_updates`: over the timers present at the call, pops each one
     * with no time left and records its event.
     */
    method TickTimers(now: real) returns (events: seq<CountdownEvent>)
      requires UniqueIds(timers)
      modifies this`timers
      ensures events == TickEvents(old(timers), now)
      ensures timers == Survivors(old(timers), now)
    {
      var snapshot := timers;
      events := [];
      for k := 0 to |snapshot|
        invariant events == TickEvents(snapshot[..k], now)
        invariant timers == Survivors(snapshot[..k], now) + snapshot[k..]
      {
        var state := snapshot[k];
        TickEventsStep(snapshot, k, now);
        if Remaining(state, now) <= 0.0 {
          TickPops(snapshot, k, now);
          timers := Without(timers, state.skillId);
          events := events + [CompletedEvent(state)];
        } else {
          TickKeeps(snapshot, k, now);
          events := events + [UpdatedEvent(state, now)];
        }
      }
      assert snapshot[..|snapshot|] == snapshot;
    }

    /** The delivery loop of `emit_updates`: the events in order, each to every subscriber. */
    method EmitAll(events: seq<CountdownEvent>)
      modifies this`delivered
      ensures delivered == old(delivered) + DeliverAll(subscribers, events)
    {
      for k := 0 to |events|
        invariant delivered == old(delivered) + DeliverAll(subscribers, events[..k])
      {
        assert events[..k + 1][..k] == events[..k];
        Emit(events[k]);
      }
      assert events[..|events|] == events;
    }

    /** `get_active` */
    function GetActive(skillId: int, now: real): (r: Option<ActiveCountdown>)
      reads this
      ensures r.Some? <==> HasTimer(timers, skillId)
      ensures r.Some? ==> r.value.skillId == skillId && r.value.remaining >= 0.0
    {
      match Find(timers, skillId)
      case None => None
      case Some(t) => Some(Snapshot(t, now))
    }

    /** `list_active`: a snapshot of every timer, ordered by skill id. */
    function ListActive(now: real): (r: seq<ActiveCountdown>)
      reads this
      requires Valid()
      ensures |r| == |timers|
      ensures forall i, j | 0 <= i < j < |r| :: r[i].skillId < r[j].skillId
      ensures forall t | t in timers :: Snapshot(t, now) in r
      ensures forall a | a in r :: exists t | t in timers :: a == Snapshot(t, now)
    {
      SortedSnapshots(timers, now);
      Snapshots(SortById(timers), now)
    }
  }

  // ---------------------------------------------------------------------------
  // Lemmas the service's methods rely on

  lemma NoDuplicatesTail(s: seq<nat>)
    requires NoDuplicates(s) && s != []
    ensures NoDuplicates(s[1..]) && s[0] !in s[1..]
  {
    forall i, j | 0 <= i < j < |s| - 1
      ensures s[1..][i] != s[1..][j]
    {
      assert s[1..][i] == s[i + 1] && s[1..][j] == s[j + 1];
    }
  }

  lemma {:induction false} RemoveFirstKeepsOthers(s: seq<nat>, x: nat)
    requires NoDuplicates(s) && x in s
    ensures NoDuplicates(RemoveFirst(s, x))
    ensures forall y :: y in RemoveFirst(s, x) <==> y in s && y != x
  {
    NoDuplicatesTail(s);
    assert s == [s[0]] + s[1..];
    if s[0] != x {
      RemoveFirstKeepsOthers(s[1..], x);
      var r := RemoveFirst(s[1..], x);
      assert s[0] !in r;
      forall i, j | 0 <= i < j < |[s[0]] + r|
        ensures ([s[0]] + r)[i] != ([s[0]] + r)[j]
      {
        if i > 0 {
          assert ([s[0]] + r)[i] == r[i - 1] && ([s[0]] + r)[j] == r[j - 1];
        } else {
          assert ([s[0]] + r)[j] in r;
        }
      }
    }
  }

  lemma {:induction false} RemoveFirstAbsent(s: seq<nat>, x: nat)
    requires x !in s
    ensures RemoveFirst(s, x) == s
  {
    if s != [] {
      assert s == [s[0]] + s[1..];
      RemoveFirstAbsent(s[1..], x);
    }
  }

  lemma UniqueIdsTail(ts: seq<Timer>)
    requires UniqueIds(ts) && ts != []
    ensures UniqueIds(ts[1..])
    ensures forall t | t in ts[1..] :: t.skillId != ts[0].skillId
  {
    forall i, j | 0 <= i < j < |ts| - 1
      ensures ts[1..][i].skillId != ts[1..][j].skillId
    {
      assert ts[1..][i] == ts[i + 1] && ts[1..][j] == ts[j + 1];
    }
    forall t | t in ts[1..]
      ensures t.skillId != ts[0].skillId
    {
      var j :| 0 <= j < |ts| - 1 && ts[1..][j] == t;
      assert ts[j + 1] == t;
    }
  }

  lemma UniqueIdsPrefix(ts: seq<Timer>, n: nat)
    requires UniqueIds(ts) && n <= |ts|
    ensures UniqueIds(ts[..n])
    ensures forall i | 0 <= i < n :: forall j | n <= j < |ts| :: ts[i].skillId != ts[j].skillId
  {
  }

  lemma UniqueIdsSnoc(ts: seq<Timer>, t: Timer)
    requires UniqueIds(ts)
    requires forall x | x in ts :: x.skillId != t.skillId
    ensures UniqueIds(ts + [t])
  {
    forall i, j | 0 <= i < j < |ts| + 1
      ensures (ts + [t])[i].skillId != (ts + [t])[j].skillId
    {
      if j == |ts| {
        assert (ts + [t])[i] in ts;
      }
    }
  }

  lemma {:induction false} WithoutKeepsUnique(ts: seq<Timer>, skillId: int)
    requires UniqueIds(ts)
    ensures UniqueIds(Without(ts, skillId))
    ensures forall t | t in Without(ts, skillId) :: t in ts && t.skillId != skillId
    ensures forall t | t in ts && t.skillId != skillId :: t in Without(ts, skillId)
  {
    if ts != [] {
      UniqueIdsTail(ts);
      WithoutKeepsUnique(ts[1..], skillId);
      var rest := Without(ts[1..], skillId);
      assert ts == [ts[0]] + ts[1..];
      if ts[0].skillId != skillId {
        forall i, j | 0 <= i < j < |[ts[0]] + rest|
          ensures ([ts[0]] + rest)[i].skillId != ([ts[0]] + rest)[j].skillId
        {
          if i > 0 {
            assert ([ts[0]] + rest)[i] == rest[i - 1] && ([ts[0]] + rest)[j] == rest[j - 1];
          } else {
            assert ([ts[0]] + rest)[j] in rest;
          }
        }
      }
    }
  }

  lemma UpsertKeepsUnique(ts: seq<Timer>, t: Timer)
    requires UniqueIds(ts)
    ensures UniqueIds(Upsert(ts, t))
    ensures forall x | x in Upsert(ts, t) :: x == t || x in ts
  {
    var i := IndexOf(ts, t.skillId);
    if i == |ts| {
      UniqueIdsSnoc(ts, t);
    } else {
      forall x | x in Upsert(ts, t)
        ensures x == t || x in ts
      {
        var j :| 0 <= j < |ts| && ts[i := t][j] == x;
      }
    }
  }

  /** One step of the loop of `emit_updates`: the next event. */
  lemma TickEventsStep(snapshot: seq<Timer>, k: nat, now: real)
    requires k < |snapshot|
    ensures TickEvents(snapshot[..k + 1], now) == TickEvents(snapshot[..k], now) + [TickEvent(snapshot[k], now)]
  {
    var next := TickEvents(snapshot[..k + 1], now);
    var prev := TickEvents(snapshot[..k], now) + [TickEvent(snapshot[k], now)];
    assert |next| == |prev|;
    forall i | 0 <= i < |next|
      ensures next[i] == prev[i]
    {
      assert snapshot[..k + 1][i] == snapshot[i];
    }
  }

  /** One step of the loop of `emit_updates` on a timer with time left: it stays. */
  lemma TickKeeps(snapshot: seq<Timer>, k: nat, now: real)
    requires k < |snapshot| && Remaining(snapshot[k], now) > 0.0
    ensures Survivors(snapshot[..k], now) + snapshot[k..] == Survivors(snapshot[..k + 1], now) + snapshot[k + 1..]
  {
    var kept := Survivors(snapshot[..k], now);
    assert snapshot[..k + 1][..k] == snapshot[..k];
    assert Survivors(snapshot[..k + 1], now) == kept + [snapshot[k]];
    assert snapshot[k..] == [snapshot[k]] + snapshot[k + 1..];
  }

  /** One step of the loop of `emit_updates` on a timer that ran out: popping its id removes just it. */
  lemma TickPops(snapshot: seq<Timer>, k: nat, now: real)
    requires UniqueIds(snapshot) && k < |snapshot| && Remaining(snapshot[k], now) <= 0.0
    ensures Without(Survivors(snapshot[..k], now) + snapshot[k..], snapshot[k].skillId)
      == Survivors(snapshot[..k + 1], now) + snapshot[k + 1..]
  {
    var id := snapshot[k].skillId;
    var kept := Survivors(snapshot[..k], now);
    assert snapshot[..k + 1][..k] == snapshot[..k];
    assert Survivors(snapshot[..k + 1], now) == kept;
    UniqueIdsPrefix(snapshot, k);
    SurvivorsSubset(snapshot[..k], now);
    WithoutAppend(kept, snapshot[k..], id);
    WithoutAbsent(kept, id);
    UniqueIdsTail(snapshot[k..]);
    assert snapshot[k..][1..] == snapshot[k + 1..];
    WithoutAbsent(snapshot[k + 1..], id);
    assert Without(snapshot[k..], id) == snapshot[k + 1..];
  }

  lemma {:induction false} WithoutAppend(a: seq<Timer>, b: seq<Timer>, skillId: int)
    ensures Without(a + b, skillId) == Without(a, skillId) + Without(b, skillId)
  {
    if a == [] {
      assert a + b == b;
    } else {
      assert (a + b)[0] == a[0];
      assert (a + b)[1..] == a[1..] + b;
      WithoutAppend(a[1..], b, skillId);
    }
  }

  lemma {:induction false} WithoutAbsent(ts: seq<Timer>, skillId: int)
    requires forall t | t in ts :: t.skillId != skillId
    ensures Without(ts, skillId) == ts
  {
    if ts != [] {
      assert ts == [ts[0]] + ts[1..];
      WithoutAbsent(ts[1..], skillId);
    }
  }

  lemma {:induction false} SurvivorsSubset(ts: seq<Timer>, now: real)
    ensures forall t | t in Survivors(ts, now) :: exists i | 0 <= i < |ts| :: ts[i] == t
  {
    if ts != [] {
      var n := |ts| - 1;
      SurvivorsSubset(ts[..n], now);
    }
  }

  /** The timers left after a tick are taken from the old ones, all with time left, one per id. */
  lemma {:induction false} SurvivorsKeepValid(ts: seq<Timer>, now: real)
    requires UniqueIds(ts)
    ensures UniqueIds(Survivors(ts, now))
    ensures forall t | t in Survivors(ts, now) :: t in ts && Remaining(t, now) > 0.0
  {
    if ts != [] {
      var n := |ts| - 1;
      UniqueIdsPrefix(ts, n);
      SurvivorsKeepValid(ts[..n], now);
      SurvivorsSubset(ts[..n], now);
      if Remaining(ts[n], now) > 0.0 {
        UniqueIdsSnoc(Survivors(ts[..n], now), ts[n]);
      }
    }
  }

  lemma {:induction false} InsertByIdSorted(t: Timer, sorted: seq<Timer>)
    requires SortedById(sorted)
    requires forall x | x in sorted :: x.skillId != t.skillId
    ensures SortedById(InsertById(t, sorted))
  {
    if sorted != [] && t.skillId >= sorted[0].skillId {
      var tail := sorted[1..];
      SortedByIdTail(sorted);
      forall x | x in tail
        ensures x.skillId != t.skillId
      {
        assert x in sorted;
      }
      InsertByIdSorted(t, tail);
      var rest := InsertById(t, tail);
      forall k | 0 <= k < |rest|
        ensures sorted[0].skillId < rest[k].skillId
      {
        var x := rest[k];
        assert x in multiset(rest);
        if x != t {
          assert x in multiset(tail);
          var j :| 0 <= j < |tail| && tail[j] == x;
          assert sorted[j + 1] == x;
        }
      }
      assert InsertById(t, sorted) == [sorted[0]] + rest;
      ConsSorted(sorted[0], rest);
    }
  }

  lemma SortedByIdTail(ts: seq<Timer>)
    requires SortedById(ts) && ts != []
    ensures SortedById(ts[1..])
  {
    var tail := ts[1..];
    forall i, j | 0 <= i < j < |tail|
      ensures tail[i].skillId < tail[j].skillId
    {
      assert tail[i] == ts[i + 1] && tail[j] == ts[j + 1];
    }
  }

  /** A sorted list stays sorted with a smaller id put in front. */
  lemma ConsSorted(h: Timer, rest: seq<Timer>)
    requires SortedById(rest)
    requires forall k | 0 <= k < |rest| :: h.skillId < rest[k].skillId
    ensures SortedById([h] + rest)
  {
    var s := [h] + rest;
    forall i, j | 0 <= i < j < |s|
      ensures s[i].skillId < s[j].skillId
    {
      assert s[j] == rest[j - 1];
      if i > 0 {
        assert s[i] == rest[i - 1];
      }
    }
  }

  lemma {:induction false} SortByIdSorted(ts: seq<Timer>)
    requires UniqueIds(ts)
    ensures SortedById(SortById(ts))
  {
    if ts != [] {
      UniqueIdsTail(ts);
      SortByIdSorted(ts[1..]);
      var rest := SortById(ts[1..]);
      forall x | x in rest
        ensures x.skillId != ts[0].skillId
      {
        assert x in multiset(ts[1..]);
      }
      InsertByIdSorted(ts[0], rest);
    }
  }

  /**
   * What `list_active` returns: exactly the snapshots of the timers, each once, in strictly
   * increasing id order.
   */
  lemma SortedSnapshots(ts: seq<Timer>, now: real)
    requires UniqueIds(ts)
    ensures var r := Snapshots(SortById(ts), now);
      && |r| == |ts|
      && (forall i, j | 0 <= i < j < |r| :: r[i].skillId < r[j].skillId)
      && (forall t | t in ts :: Snapshot(t, now) in r)
      && (forall a | a in r :: exists t | t in ts :: a == Snapshot(t, now))
  {
    var sorted := SortById(ts);
    var r := Snapshots(sorted, now);
    SortByIdSorted(ts);
    assert |sorted| == |multiset(sorted)| == |multiset(ts)| == |ts|;
    forall t | t in ts
      ensures Snapshot(t, now) in r
    {
      assert t in multiset(sorted);
      var i :| 0 <= i < |sorted| && sorted[i] == t;
      assert r[i] == Snapshot(t, now);
    }
    forall a | a in r
      ensures exists t | t in ts :: a == Snapshot(t, now)
    {
      var i :| 0 <= i < |r| && r[i] == a;
      assert sorted[i] in multiset(ts);
    }
  }
}
