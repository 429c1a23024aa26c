/**
 * What the countdown service of src/d2rso/countdown_service.py promises about its timer
 * table: one timer per id, a refresh that replaces rather than duplicates, a removal that
 * touches one id, and a tick that drops exactly the timers that ran out.
 */
module CountdownLemmas {
  import opened Wrappers
  import opened Countdown

  // ---------------------------------------------------------------------------
  // Remaining time

  /** The time left is never negative, and never more than the duration once the timer has started. */
  lemma RemainingBounds(t: Timer, now: real)
    requires WellFormed(t) && now >= t.startedAt
    ensures 0.0 <= Remaining(t, now) <= t.duration
  {
  }

  /** A timer (re)started at `now` has its whole duration left, and ends `duration` after `now`. */
  lemma ScheduledRemaining(skillId: int, duration: real, now: real)
    requires duration > 0.0
    ensures var t := Scheduled(skillId, duration, now);
      && WellFormed(t) && t.startedAt == now && t.endsAt == now + duration
      && Remaining(t, now) == duration
      && UpdatedEvent(t, now) == CountdownEvent(Updated, skillId, duration, duration, false)
  {
  }

  // ---------------------------------------------------------------------------
  // The table under removal and refresh

  /** The lookup looks at the first timer, then at the rest. */
  lemma FindCons(ts: seq<Timer>, skillId: int)
    requires ts != []
    ensures Find(ts, skillId) == if ts[0].skillId == skillId then Some(ts[0]) else Find(ts[1..], skillId)
  {
    if ts[0].skillId != skillId {
      var k := IndexOf(ts[1..], skillId);
      assert k < |ts| - 1 ==> ts[1..][k] == ts[k + 1];
    }
  }

  /** Removing an id's timer takes that id out and leaves every other id's timer as it was. */
  lemma {:induction false} FindWithout(ts: seq<Timer>, skillId: int, other: int)
    requires UniqueIds(ts)
    ensures Find(Without(ts, skillId), other) == if other == skillId then None else Find(ts, other)
  {
    if ts != [] {
      UniqueIdsTail(ts);
      FindWithout(ts[1..], skillId, other);
      FindCons(ts, other);
      var rest := Without(ts[1..], skillId);
      if ts[0].skillId != skillId {
        assert Without(ts, skillId) == [ts[0]] + rest;
        assert ([ts[0]] + rest)[1..] == rest;
        FindCons([ts[0]] + rest, other);
      } else {
        assert Without(ts, skillId) == rest;
      }
    }
  }

  /** An id has a timer in a non-empty table when the first timer or one of the rest is for it. */
  lemma HasTimerCons(ts: seq<Timer>, skillId: int)
    requires ts != []
    ensures HasTimer(ts, skillId) <==> ts[0].skillId == skillId || HasTimer(ts[1..], skillId)
  {
    if HasTimer(ts[1..], skillId) {
      var i :| 0 <= i < |ts| - 1 && ts[1..][i].skillId == skillId;
      assert ts[i + 1].skillId == skillId;
    }
    if HasTimer(ts, skillId) && ts[0].skillId != skillId {
      var i :| 0 <= i < |ts| && ts[i].skillId == skillId;
      assert ts[1..][i - 1].skillId == skillId;
    }
  }

  /** Removing an id shrinks the table by one when the id had a timer, and not at all otherwise. */
  lemma {:induction false} WithoutCount(ts: seq<Timer>, skillId: int)
    requires UniqueIds(ts)
    ensures |Without(ts, skillId)| == if HasTimer(ts, skillId) then |ts| - 1 else |ts|
  {
    if ts != [] {
      UniqueIdsTail(ts);
      WithoutCount(ts[1..], skillId);
      HasTimerCons(ts, skillId);
      assert ts == [ts[0]] + ts[1..];
      if ts[0].skillId == skillId {
        forall i | 0 <= i < |ts| - 1
          ensures ts[1..][i].skillId != skillId
        {
          assert ts[1..][i] in ts[1..];
        }
      }
    }
  }

  /**
   * Storing a timer makes it the one for its id and leaves every other id's timer as it was;
   * the table grows by one only for a new id, so a re-trigger keeps the count.
   */
  lemma FindUpsert(ts: seq<Timer>, t: Timer, other: int)
    requires UniqueIds(ts)
    ensures Find(Upsert(ts, t), other) == if other == t.skillId then Some(t) else Find(ts, other)
    ensures |Upsert(ts, t)| == if HasTimer(ts, t.skillId) then |ts| else |ts| + 1
  {
    var i := IndexOf(ts, t.skillId);
    UpsertKeepsUnique(ts, t);
    var r := Upsert(ts, t);
    if i < |ts| {
      FindIsAt(r, i);
      if other != t.skillId {
        if HasTimer(ts, other) {
          var j := IndexOf(ts, other);
          FindIsAt(ts, j);
          FindIsAt(r, j);
        } else {
          forall j | 0 <= j < |r|
            ensures r[j].skillId != other
          {
            assert j != i ==> r[j] == ts[j];
          }
        }
      }
    } else {
      FindIsAt(r, |ts|);
      if other != t.skillId {
        if HasTimer(ts, other) {
          var j := IndexOf(ts, other);
          FindIsAt(ts, j);
          FindIsAt(r, j);
        } else {
          forall j | 0 <= j < |r|
            ensures r[j].skillId != other
          {
            assert j < |ts| ==> r[j] == ts[j];
          }
        }
      }
    }
  }

  /** In a table with one timer per id, the lookup finds the timer at any position holding that id. */
  lemma FindIsAt(ts: seq<Timer>, i: nat)
    requires UniqueIds(ts) && i < |ts|
    ensures Find(ts, ts[i].skillId) == Some(ts[i])
  {
    var j := IndexOf(ts, ts[i].skillId);
  }

  // ---------------------------------------------------------------------------
  // The tick

  /**
   * The tick reports every timer once, in table order: a timer with no time left as removed
   * and completed with nothing left, any other as updated with its time left.
   */
  lemma TickReportsEveryTimer(ts: seq<Timer>, now: real)
    ensures |TickEvents(ts, now)| == |ts|
    ensures forall i | 0 <= i < |ts| ::
      var e := TickEvents(ts, now)[i];
      && e.skillId == ts[i].skillId && e.duration == ts[i].duration
      && (e.kind == Removed <==> Remaining(ts[i], now) <= 0.0)
      && (e.kind == Removed ==> e.completed && e.remaining == 0.0)
      && (e.kind == Updated ==> !e.completed && e.remaining == Remaining(ts[i], now) > 0.0)
  {
  }

  /** The tick keeps exactly the timers with time left, and every one it keeps ends after `now`. */
  lemma {:induction false} TickKeepsUnexpired(ts: seq<Timer>, now: real)
    ensures forall t :: t in Survivors(ts, now) <==> t in ts && Remaining(t, now) > 0.0
    ensures forall t | t in Survivors(ts, now) :: t.endsAt > now
  {
    if ts != [] {
      var n := |ts| - 1;
      TickKeepsUnexpired(ts[..n], now);
      assert ts == ts[..n] + [ts[n]];
    }
  }

  /** After a tick, an id keeps its timer exactly when that timer had time left. */
  lemma TickFind(ts: seq<Timer>, now: real, skillId: int)
    requires UniqueIds(ts)
    ensures Find(Survivors(ts, now), skillId) ==
      if Find(ts, skillId).Some? && Remaining(Find(ts, skillId).value, now) > 0.0 then Find(ts, skillId) else None
  {
    var kept := Survivors(ts, now);
    SurvivorsKeepValid(ts, now);
    TickKeepsUnexpired(ts, now);
    var before := Find(ts, skillId);
    var after := Find(kept, skillId);
    if after.Some? {
      var j :| 0 <= j < |kept| && kept[j].skillId == skillId;
      FindIsAt(kept, j);
      var i :| 0 <= i < |ts| && ts[i] == kept[j];
      FindIsAt(ts, i);
    } else {
      forall j | 0 <= j < |kept|
        ensures kept[j].skillId != skillId
      {
        var i :| 0 <= i < |ts| && ts[i] == kept[j];
        FindIsAt(ts, i);
      }
    }
  }

  // ---------------------------------------------------------------------------
  // Subscribers

  /** Subscribing twice registers once; unsubscribing drops the subscriber and keeps the others. */
  lemma SubscriberList(s: seq<nat>, x: nat)
    requires NoDuplicates(s)
    ensures x in s ==> NoDuplicates(RemoveFirst(s, x)) && x !in RemoveFirst(s, x)
    ensures forall y | y != x :: y in RemoveFirst(s, x) <==> y in s
    ensures x !in s ==> NoDuplicates(s + [x])
  {
    if x in s {
      RemoveFirstKeepsOthers(s, x);
    } else {
      RemoveFirstAbsent(s, x);
    }
  }

  /** Delivering two batches of events one after the other is delivering them all in that order. */
  lemma {:induction false} DeliverAllAppend(subscribers: seq<nat>, first: seq<CountdownEvent>, second: seq<CountdownEvent>)
    ensures DeliverAll(subscribers, first + second) == DeliverAll(subscribers, first) + DeliverAll(subscribers, second)
  {
    if second == [] {
      assert first + second == first;
    } else {
      var n := |second| - 1;
      var all := first + second;
      assert all[..|all| - 1] == first + second[..n];
      assert all[|all| - 1] == second[n];
      DeliverAllAppend(subscribers, first, second[..n]);
      var a := DeliverAll(subscribers, first);
      var b := DeliverAll(subscribers, second[..n]);
      var c := Deliveries(subscribers, second[n]);
      assert DeliverAll(subscribers, all) == (a + b) + c;
      assert DeliverAll(subscribers, second) == b + c;
      assert (a + b) + c == a + (b + c);
    }
  }
}
