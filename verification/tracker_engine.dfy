/**
 * The tracker matching engine of src/d2rso/tracker_engine.py: each skill item is a small
 * machine, idle or armed (its select key held), and every normalised input event either
 * fires items or arms and disarms them.
 */
module TrackerEngine {
  import opened Wrappers
  import opened Text
  import opened InputEvents
  import opened Models

  /**
   * `_matches_event_code`: a configured code matches an event when, re-normalised for the
   * family inferred from its own shape (or the event's family when none is inferred), it
   * equals the event's code up to case. The engine matches with the table as written.
   */
  function MatchesEventCode(configCode: Option<string>, event: InputEvent, table: AliasTable): bool {
    match configCode
    case None => false
    case Some(code) =>
      var source := InferInputSource(TextCode(code)).GetOr(event.source);
      match NormalizeFor(TextCode(code), source, table)
      case None => false
      case Some(normalized) => Lower(normalized) == Lower(event.code)
  }

  // ---------------------------------------------------------------------------
  // One item as a value

  /** What the engine looks at in one item: its configuration and whether its select key is held. */
  datatype ItemState = ItemState(config: SkillConfig, held: bool)

  /** An item fires on a press of its skill key while it is enabled and `skill_key_pressed` holds. */
  predicate Fires(s: ItemState, event: InputEvent) {
    && event.pressed
    && s.config.isEnabled
    && MatchesEventCode(s.config.skillKey, event, AsWritten)
    && (s.config.selectKey.None? || s.held)
  }

  /**
   * The hold state an enabled item is left in when the event is on its select key:
   * `select_key_pressed` on a press, `select_key_released` on a release.
   */
  function HeldAfter(s: ItemState, event: InputEvent): bool {
    if s.config.isEnabled && MatchesEventCode(s.config.selectKey, event, AsWritten) then
      if event.pressed then s.held || s.config.selectKey.Some? else false
    else s.held
  }

  /** The item after the event. */
  function Step(s: ItemState, event: InputEvent): ItemState {
    s.(held := HeldAfter(s, event))
  }

  /** Which items fire, item by item. */
  function FireFlags(states: seq<ItemState>, event: InputEvent): (r: seq<bool>)
    ensures |r| == |states| && forall k | 0 <= k < |states| :: r[k] == Fires(states[k], event)
  {
    seq(|states|, k requires 0 <= k < |states| => Fires(states[k], event))
  }

  /** The positions of the set flags, in order. */
  function TrueIndices(flags: seq<bool>): (r: seq<nat>)
    ensures forall j | 0 <= j < |r| :: r[j] < |flags|
  {
    if flags == [] then []
    else
      var n := |flags| - 1;
      TrueIndices(flags[..n]) + (if flags[n] then [n] else [])
  }

  /** The positions of the items that fire, in configured order. */
  function FiredIndices(states: seq<ItemState>, event: InputEvent): (r: seq<nat>)
    ensures forall j | 0 <= j < |r| :: r[j] < |states|
  {
    TrueIndices(FireFlags(states, event))
  }

  /** The items at the given positions. */
  function Pick(items: seq<SkillItem>, positions: seq<nat>): (r: seq<SkillItem>)
    requires forall j | 0 <= j < |positions| :: positions[j] < |items|
    ensures |r| == |positions| && forall j | 0 <= j < |positions| :: r[j] == items[positions[j]]
  {
    seq(|positions|, j requires 0 <= j < |positions| => items[positions[j]])
  }

  /** The state of every item, in order. */
  function States(items: seq<SkillItem>): (r: seq<ItemState>)
    reads items
    ensures |r| == |items| && forall k | 0 <= k < |items| :: r[k] == ItemState(items[k].Config(), items[k].selectKeyHeld)
  {
    seq(|items|, k requires 0 <= k < |items| reads items => ItemState(items[k].Config(), items[k].selectKeyHeld))
  }

  // ---------------------------------------------------------------------------
  // The engine

  /** `TrackerInputEngine` */
  class TrackerInputEngine {
    var skillItems: seq<SkillItem>

    /** `TrackerInputEngine()`: no items. */
    constructor ()
      ensures skillItems == []
    {
      skillItems := [];
    }

    /** `set_skill_items`: replaces the tracked items. */
    method SetSkillItems(items: seq<SkillItem>)
      modifies this
      ensures skillItems == items
    {
      skillItems := items;
    }

    /**
     * `process_event`: a release disarms the enabled items whose select key it is on and
     * fires nothing; a press first collects the items that fire, judged by their hold state
     * before the event, and only then arms the enabled items whose select key it is on.
     * The configurations are left alone.
     */
    method ProcessEvent(event: InputEvent) returns (triggered: seq<SkillItem>)
      modifies skillItems
      ensures forall o | o in skillItems :: o.Config() == old(o.Config())
      ensures forall o | o in skillItems :: o.selectKeyHeld == HeldAfter(ItemState(o.Config(), old(o.selectKeyHeld)), event)
      ensures triggered == Pick(skillItems, FiredIndices(old(States(skillItems)), event))
    {
      if !event.pressed {
        ReleaseFiresNothing(States(skillItems), event);
        UpdateHolds(skillItems, event);
        return [];
      }
      triggered := CollectFired(skillItems, event);
      UpdateHolds(skillItems, event);
    }
  }

  /** The first loop of `process_event` on a press: the items that fire, in order. */
  method CollectFired(items: seq<SkillItem>, event: InputEvent) returns (triggered: seq<SkillItem>)
    requires event.pressed
    ensures triggered == Pick(items, FiredIndices(States(items), event))
  {
    ghost var states := States(items);
    ghost var flags := FireFlags(states, event);
    triggered := [];
    for k := 0 to |items|
      invariant triggered == Pick(items, TrueIndices(flags[..k]))
    {
      var item := items[k];
      var fires := item.isEnabled && MatchesEventCode(item.skillKey, event, AsWritten) && item.SkillKeyPressed();
      assert fires == Fires(states[k], event);
      assert flags[..k + 1][..k] == flags[..k];
      if fires {
        PickSnoc(items, TrueIndices(flags[..k]), k);
        triggered := triggered + [item];
      }
    }
    assert flags[..|items|] == flags;
  }

  /**
   * The loop of `process_event` over the select keys: on a release it disarms, on a press
   * (after the items that fire are collected) it arms, each enabled item whose select key
   * the event is on.
   */
  method UpdateHolds(items: seq<SkillItem>, event: InputEvent)
    modifies items
    ensures forall o | o in items :: o.Config() == old(o.Config())
    ensures forall o | o in items :: o.selectKeyHeld == HeldAfter(ItemState(o.Config(), old(o.selectKeyHeld)), event)
  {
    for k := 0 to |items|
      invariant forall o | o in items :: o.Config() == old(o.Config())
      invariant forall o | o in items ::
        o.selectKeyHeld == if o in items[..k] then HeldAfter(ItemState(o.Config(), old(o.selectKeyHeld)), event) else old(o.selectKeyHeld)
    {
      var item := items[k];
      UpdateHold(item, event);
      assert items[..k + 1] == items[..k] + [item];
    }
    assert items[..|items|] == items;
  }

  /** One step of that loop: the item's hold state after the event, and nothing else about it changed. */
  method UpdateHold(item: SkillItem, event: InputEvent)
    modifies item`selectKeyHeld
    ensures item.selectKeyHeld == HeldAfter(ItemState(item.Config(), old(item.selectKeyHeld)), event)
  {
    if item.isEnabled && MatchesEventCode(item.selectKey, event, AsWritten) {
      if event.pressed {
        item.SelectKeyPressed();
      } else {
        item.SelectKeyReleased();
      }
    }
  }

  /** The positions of the set flags are exactly the set flags, each once and in increasing order. */
  lemma {:induction false} TrueIndicesSpec(flags: seq<bool>)
    ensures forall i :: i in TrueIndices(flags) <==> 0 <= i < |flags| && flags[i]
    ensures forall j, k | 0 <= j < k < |TrueIndices(flags)| :: TrueIndices(flags)[j] < TrueIndices(flags)[k]
  {
    if flags != [] {
      var n := |flags| - 1;
      TrueIndicesSpec(flags[..n]);
    }
  }

  lemma PickSnoc(items: seq<SkillItem>, positions: seq<nat>, k: nat)
    requires forall j | 0 <= j < |positions| :: positions[j] < |items|
    requires k < |items|
    ensures Pick(items, positions + [k]) == Pick(items, positions) + [items[k]]
  {
  }

  lemma {:induction false} NoTrueIndices(flags: seq<bool>)
    requires forall k | 0 <= k < |flags| :: !flags[k]
    ensures TrueIndices(flags) == []
  {
    if flags != [] {
      NoTrueIndices(flags[..|flags| - 1]);
    }
  }

  /** A release fires nothing. */
  lemma ReleaseFiresNothing(states: seq<ItemState>, event: InputEvent)
    requires !event.pressed
    ensures FiredIndices(states, event) == []
  {
    NoTrueIndices(FireFlags(states, event));
  }

  /**
   * The fired positions are exactly those of the items that fire, each once and in
   * increasing order: the returned items are a subsequence of the configured ones.
   */
  lemma FiredIndicesSpec(states: seq<ItemState>, event: InputEvent)
    ensures forall i :: i in FiredIndices(states, event) <==> 0 <= i < |states| && Fires(states[i], event)
    ensures forall j, k | 0 <= j < k < |FiredIndices(states, event)| :: FiredIndices(states, event)[j] < FiredIndices(states, event)[k]
  {
    TrueIndicesSpec(FireFlags(states, event));
  }
}
