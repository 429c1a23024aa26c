/**
 * What the runtime controller of src/d2rso/tracker_runtime.py promises about triggers: a
 * payload of triggered skills leaves one countdown per id, and each id's countdown is
 * decided by the last row for it, so a skill triggered again restarts its countdown instead
 * of adding another.
 */
module RuntimeLemmas {
  import opened Wrappers
  import opened Countdown
  import opened CountdownLemmas
  import opened Runtime

  /** The duration, never negative, of the last payload row for `skillId`, if any. */
  function LastDuration(payload: seq<(int, real)>, skillId: int): (r: Option<real>)
    ensures r.Some? ==> r.value >= 0.0
    decreases |payload|
  {
    if payload == [] then None
    else if payload[|payload| - 1].0 == skillId then Some(NonNegative(payload[|payload| - 1].1))
    else LastDuration(payload[..|payload| - 1], skillId)
  }

  /** Refreshing keeps one timer per id. */
  lemma {:induction false} RefreshAllKeepsUnique(ts: seq<Timer>, payload: seq<(int, real)>, now: real)
    requires UniqueIds(ts)
    ensures UniqueIds(AfterRefreshAll(ts, payload, now))
    decreases |payload|
  {
    if payload != [] {
      var n := |payload| - 1;
      RefreshAllKeepsUnique(ts, payload[..n], now);
      var before := AfterRefreshAll(ts, payload[..n], now);
      var d := NonNegative(payload[n].1);
      if d == 0.0 {
        WithoutKeepsUnique(before, payload[n].0);
      } else {
        UpsertKeepsUnique(before, Scheduled(payload[n].0, d, now));
      }
    }
  }

  /**
   * After a payload, an id with no row keeps the timer it had; otherwise its last row decides:
   * a zero duration leaves it without a timer, a positive one restarts its timer at `now`.
   */
  lemma {:induction false} RefreshAllFind(ts: seq<Timer>, payload: seq<(int, real)>, now: real, skillId: int)
    requires UniqueIds(ts)
    ensures Find(AfterRefreshAll(ts, payload, now), skillId) ==
      match LastDuration(payload, skillId)
      case None => Find(ts, skillId)
      case Some(d) => if d == 0.0 then None else Some(Scheduled(skillId, d, now))
    decreases |payload|
  {
    if payload != [] {
      var n := |payload| - 1;
      RefreshAllFind(ts, payload[..n], now, skillId);
      RefreshAllKeepsUnique(ts, payload[..n], now);
      var before := AfterRefreshAll(ts, payload[..n], now);
      var d := NonNegative(payload[n].1);
      if d == 0.0 {
        FindWithout(before, payload[n].0, skillId);
      } else {
        FindUpsert(before, Scheduled(payload[n].0, d, now), skillId);
      }
    }
  }

  /**
   * Triggering the same skill twice with a positive duration leaves one countdown for it,
   * restarted at `now`: the count grows by one only if the skill had no countdown before.
   */
  lemma RepeatedTriggerKeepsOne(ts: seq<Timer>, skillId: int, duration: real, now: real)
    requires UniqueIds(ts) && duration > 0.0
    ensures var after := AfterRefreshAll(ts, [(skillId, duration), (skillId, duration)], now);
      && Find(after, skillId) == Some(Scheduled(skillId, duration, now))
      && |after| == if HasTimer(ts, skillId) then |ts| else |ts| + 1
  {
    var t := Scheduled(skillId, duration, now);
    var p := [(skillId, duration), (skillId, duration)];
    assert p[..1][..0] == [];
    assert p[..1] == [(skillId, duration)];
    assert NonNegative(duration) == duration;
    assert AfterRefreshAll(ts, p[..1][..0], now) == ts;
    var once := AfterRefreshAll(ts, p[..1], now);
    assert once == Upsert(ts, t);
    FindUpsert(ts, t, skillId);
    UpsertKeepsUnique(ts, t);
    FindUpsert(once, t, skillId);
    var j := IndexOf(once, skillId);
    assert HasTimer(once, skillId);
  }
}
