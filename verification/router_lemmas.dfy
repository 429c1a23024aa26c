/**
 * What `InputRouter` of src/d2rso/input_router.py promises about the order of its adapter
 * calls: a failed start stops exactly the adapters it had started, last first, and the
 * error a failed stop reports is the first one met going through the adapters in reverse.
 */
module RouterLemmas {
  import opened Wrappers
  import opened Router

  /** The calls of a start whose adapter `f` failed. */
  function RolledBack(f: nat): seq<AdapterCall> {
    StartCalls(f + 1) + ReverseStops(f)
  }

  /**
   * A start that fails at adapter `f` starts adapters `0 .. f` in order and then stops
   * exactly `0 .. f-1`, the last started first.
   */
  lemma RollbackStopsStarted(f: nat)
    ensures forall i: nat :: StartAdapter(i) in RolledBack(f) <==> i <= f
    ensures forall i: nat :: StopAdapter(i) in RolledBack(f) <==> i < f
    ensures |RolledBack(f)| == 2 * f + 1
    ensures forall k | 0 <= k <= f :: RolledBack(f)[k] == StartAdapter(k)
    ensures forall k | f < k <= 2 * f :: RolledBack(f)[k] == StopAdapter(2 * f - k)
  {
    var calls := RolledBack(f);
    RolledBackEntries(f);
    forall i: nat
      ensures StartAdapter(i) in calls <==> i <= f
    {
      if i <= f {
        assert calls[i] == StartAdapter(i);
      }
      if StartAdapter(i) in calls {
        var k :| 0 <= k < |calls| && calls[k] == StartAdapter(i);
        assert k <= f;
      }
    }
    forall i: nat
      ensures StopAdapter(i) in calls <==> i < f
    {
      if i < f {
        assert calls[f + 1 + (f - 1 - i)] == StopAdapter(i);
      }
      if StopAdapter(i) in calls {
        var k :| 0 <= k < |calls| && calls[k] == StopAdapter(i);
        assert f < k;
      }
    }
  }

  lemma RolledBackEntries(f: nat)
    ensures |RolledBack(f)| == 2 * f + 1
    ensures forall k | 0 <= k <= f :: RolledBack(f)[k] == StartAdapter(k)
    ensures forall k | f < k <= 2 * f :: RolledBack(f)[k] == StopAdapter(2 * f - k)
  {
  }

  /** The adapter list read back to front. */
  function Reversed(fails: seq<bool>): (r: seq<bool>)
    ensures |r| == |fails| && forall k | 0 <= k < |fails| :: r[k] == fails[|fails| - 1 - k]
  {
    seq(|fails|, k requires 0 <= k < |fails| => fails[|fails| - 1 - k])
  }

  /**
   * The failure `stop` reports is the first one met walking the adapters from the last to
   * the first, and there is one exactly when some adapter failed to stop.
   */
  lemma StopCauseIsFirstMetInReverse(fails: seq<bool>)
    ensures LastFailure(fails).None? <==> FirstFailure(Reversed(fails)) == |fails|
    ensures LastFailure(fails).Some? ==> FirstFailure(Reversed(fails)) == |fails| - 1 - LastFailure(fails).value
  {
    var rev := Reversed(fails);
    var f := FirstFailure(rev);
    if f < |fails| {
      assert fails[|fails| - 1 - f];
      forall i | |fails| - 1 - f < i < |fails|
        ensures !fails[i]
      {
        assert rev[|fails| - 1 - i] == fails[i];
      }
    } else {
      forall i | 0 <= i < |fails|
        ensures !fails[i]
      {
        assert rev[|fails| - 1 - i] == fails[i];
      }
    }
  }
}
