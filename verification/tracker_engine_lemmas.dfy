/**
 * What the matching engine of src/d2rso/tracker_engine.py promises, item by item and over
 * a sequence of events: a release never fires, an item fires only if it was armed before
 * the event, disabled items are inert, and canonical codes match by their spelling.
 */
module TrackerEngineLemmas {
  import opened Wrappers
  import opened Text
  import opened InputEvents
  import opened InputEventsLemmas
  import opened InputFamilies
  import opened Models
  import opened TrackerEngine

  // ---------------------------------------------------------------------------
  // Key matching

  /** With the corrected table a configured canonical code matches exactly the events whose code it spells, up to case. */
  lemma CanonicalCodeMatches(c: string, source: InputSource, event: InputEvent)
    requires IsCanonicalCode(c, source)
    ensures MatchesEventCode(Some(c), event, WithShiftKeys) <==> Lower(c) == Lower(event.code)
  {
    CanonicalCodeFixed(c, source);
  }

  /**
   * In the program a configured canonical code matches exactly the events whose code it
   * spells, up to case, unless it is `LShiftKey` or `RShiftKey`, which match no event.
   */
  lemma CanonicalCodeMatchesAsWritten(c: string, source: InputSource, event: InputEvent)
    requires IsCanonicalCode(c, source)
    ensures MatchesEventCode(Some(c), event, AsWritten) <==> !IsShiftKeyCode(c) && Lower(c) == Lower(event.code)
  {
    CanonicalCodeAsWritten(c, source);
  }

  /** With the corrected table, configuring the code an event was built with makes that event match. */
  lemma EventMatchesItsCode(code: RawCode, source: SourceArg, timestamp: real, pressed: bool)
    requires MakeInputEvent(code, source, timestamp, pressed, WithShiftKeys).Ok?
    ensures var e := MakeInputEvent(code, source, timestamp, pressed, WithShiftKeys).value;
      MatchesEventCode(Some(e.code), e, WithShiftKeys)
  {
    var e := MakeInputEvent(code, source, timestamp, pressed, WithShiftKeys).value;
    EventCodeRoundTrip(code, source, timestamp, pressed);
    CanonicalCodeMatches(e.code, e.source, e);
  }

  /**
   * In the program, configuring the code an event was built with makes that event match
   * exactly when the code is not `LShiftKey` or `RShiftKey`.
   */
  lemma EventMatchesItsCodeAsWritten(code: RawCode, source: SourceArg, timestamp: real, pressed: bool)
    requires MakeInputEvent(code, source, timestamp, pressed, AsWritten).Ok?
    ensures var e := MakeInputEvent(code, source, timestamp, pressed, AsWritten).value;
      MatchesEventCode(Some(e.code), e, AsWritten) <==> !IsShiftKeyCode(e.code)
  {
    var e := MakeInputEvent(code, source, timestamp, pressed, AsWritten).value;
    EventCodeRoundTripAsWritten(code, source, timestamp, pressed);
    CanonicalCodeMatchesAsWritten(e.code, e.source, e);
  }

  /**
   * The shift-key defect as the engine shows it: pressing Left Shift (`LShift`) builds an
   * event with code `LShiftKey`; an item configured with that code does not match it in the
   * program, though it does with the corrected table, and so the item never fires.
   */
  lemma ShiftEventUnmatchedAsWritten(timestamp: real, c: SkillConfig, held: bool)
    requires c.skillKey == Some("LShiftKey")
    ensures MakeInputEvent(TextCode("LShift"), Known(Keyboard), timestamp, true, AsWritten) ==
      Ok(InputEvent("LShiftKey", Keyboard, timestamp, true))
    ensures !MatchesEventCode(Some("LShiftKey"), InputEvent("LShiftKey", Keyboard, timestamp, true), AsWritten)
    ensures MatchesEventCode(Some("LShiftKey"), InputEvent("LShiftKey", Keyboard, timestamp, true), WithShiftKeys)
    ensures forall event: InputEvent :: !Fires(ItemState(c, held), event)
  {
    LeftShiftEvent(TextCode("LShift"), "LShiftKey", timestamp);
    ShiftKeyMatches("LShiftKey", InputEvent("LShiftKey", Keyboard, timestamp, true));
    forall event: InputEvent
      ensures !Fires(ItemState(c, held), event)
    {
      ShiftKeyMatches("LShiftKey", event);
    }
  }

  lemma LeftShiftEvent(raw: RawCode, code: string, timestamp: real)
    requires raw == TextCode("LShift") && code == "LShiftKey"
    ensures MakeInputEvent(raw, Known(Keyboard), timestamp, true, AsWritten) == Ok(InputEvent(code, Keyboard, timestamp, true))
  {
    LeftShiftNameAsWritten();
  }

  /** A shift-key code matches no event in the program, and its own spelling with the corrected table. */
  lemma ShiftKeyMatches(code: string, event: InputEvent)
    requires IsShiftKeyCode(code)
    ensures !MatchesEventCode(Some(code), event, AsWritten)
    ensures MatchesEventCode(Some(code), event, WithShiftKeys) <==> Lower(code) == Lower(event.code)
  {
    assert code in NamedKeyboardCodes;
    CanonicalCodeMatchesAsWritten(code, Keyboard, event);
    CanonicalCodeMatches(code, Keyboard, event);
  }

  // ---------------------------------------------------------------------------
  // One item, one event

  /** A release fires nothing; it only disarms an enabled item whose select key it is on. */
  lemma ReleaseOnlyDisarms(s: ItemState, event: InputEvent)
    requires !event.pressed
    ensures !Fires(s, event)
    ensures HeldAfter(s, event) == (s.held && !(s.config.isEnabled && MatchesEventCode(s.config.selectKey, event, AsWritten)))
  {
  }

  /** A press on the select key of an enabled item leaves it armed. */
  lemma PressArms(s: ItemState, event: InputEvent)
    requires event.pressed && s.config.isEnabled && MatchesEventCode(s.config.selectKey, event, AsWritten)
    ensures HeldAfter(s, event)
  {
  }

  /**
   * Firing is judged on the hold state before the event: an item with a select key fires
   * only if it was already armed, so one event never both arms and fires it.
   */
  lemma FireBeforeArm(s: ItemState, event: InputEvent)
    ensures Fires(s, event) ==> s.config.selectKey.None? || s.held
    ensures !s.held && HeldAfter(s, event) ==> !Fires(s, event)
  {
  }

  /** A disabled item never fires and its hold state never changes. */
  lemma DisabledInert(s: ItemState, event: InputEvent)
    requires !s.config.isEnabled
    ensures !Fires(s, event) && HeldAfter(s, event) == s.held
  {
  }

  /** An event on neither key of an item does not fire it and leaves its hold state alone. */
  lemma UnrelatedEventInert(s: ItemState, event: InputEvent)
    requires !MatchesEventCode(s.config.skillKey, event, AsWritten) && !MatchesEventCode(s.config.selectKey, event, AsWritten)
    ensures !Fires(s, event) && HeldAfter(s, event) == s.held
  {
  }

  /** An item without a select key is never armed and fires on every press of its skill key while enabled. */
  lemma SkillOnlyItem(s: ItemState, event: InputEvent)
    requires s.config.selectKey.None? && !s.held
    ensures !HeldAfter(s, event)
    ensures Fires(s, event) <==> event.pressed && s.config.isEnabled && MatchesEventCode(s.config.skillKey, event, AsWritten)
  {
  }

  // ---------------------------------------------------------------------------
  // All items, one event

  /**
   * The items `process_event` returns are the enabled ones whose skill key is pressed and
   * that were armed or need no arming, in configured order; none when the event is a release.
   */
  lemma FiredItems(states: seq<ItemState>, event: InputEvent)
    ensures forall i | i in FiredIndices(states, event) ::
      && event.pressed && states[i].config.isEnabled && MatchesEventCode(states[i].config.skillKey, event, AsWritten)
      && (states[i].config.selectKey.None? || states[i].held)
    ensures forall i | 0 <= i < |states| && event.pressed && states[i].config.isEnabled
        && MatchesEventCode(states[i].config.skillKey, event, AsWritten) && (states[i].config.selectKey.None? || states[i].held) ::
      i in FiredIndices(states, event)
    ensures !event.pressed ==> FiredIndices(states, event) == []
  {
    FiredIndicesSpec(states, event);
    if !event.pressed {
      ReleaseFiresNothing(states, event);
    }
  }

  // ---------------------------------------------------------------------------
  // One item, a sequence of events

  /** Whether one item fires on each event in turn, its hold state carried from event to event. */
  function Run(s: ItemState, events: seq<InputEvent>): (r: seq<bool>)
    ensures |r| == |events|
    decreases |events|
  {
    if events == [] then [] else [Fires(s, events[0])] + Run(Step(s, events[0]), events[1..])
  }

  /**
   * The combo rule, event by event: for an enabled item with a select key, pressing the skill
   * key alone does nothing, pressing the select key arms it, an event on another key changes
   * nothing, every later skill press fires until the select key is released, and the next
   * skill press after that does nothing.
   */
  lemma ComboSequence(c: SkillConfig, skill: InputEvent, select: InputEvent, release: InputEvent, other: InputEvent)
    requires c.isEnabled && c.selectKey.Some?
    requires skill.pressed && MatchesEventCode(c.skillKey, skill, AsWritten) && !MatchesEventCode(c.selectKey, skill, AsWritten)
    requires select.pressed && MatchesEventCode(c.selectKey, select, AsWritten) && !MatchesEventCode(c.skillKey, select, AsWritten)
    requires !release.pressed && MatchesEventCode(c.selectKey, release, AsWritten)
    requires !MatchesEventCode(c.skillKey, other, AsWritten) && !MatchesEventCode(c.selectKey, other, AsWritten)
    ensures var s0 := ItemState(c, false);
      var s1 := Step(s0, skill);
      var s2 := Step(s1, select);
      var s3 := Step(s2, other);
      var s4 := Step(s3, skill);
      var s5 := Step(s4, skill);
      var s6 := Step(s5, release);
      && !Fires(s0, skill) && !Fires(s1, select) && !Fires(s2, other)
      && Fires(s3, skill) && Fires(s4, skill)
      && !Fires(s5, release) && !Fires(s6, skill)
  {
    var idle := ItemState(c, false);
    var armed := ItemState(c, true);
    assert Step(idle, skill) == idle;
    assert Step(idle, select) == armed;
    assert Step(armed, other) == armed;
    assert Step(armed, skill) == armed;
    assert Step(armed, release) == idle;
  }

  /** A disabled item never fires, whatever the events. */
  lemma {:induction false} DisabledNeverFires(s: ItemState, events: seq<InputEvent>)
    requires !s.config.isEnabled
    ensures forall j | 0 <= j < |events| :: !Run(s, events)[j]
  {
    if events != [] {
      DisabledInert(s, events[0]);
      DisabledNeverFires(Step(s, events[0]), events[1..]);
    }
  }
}
