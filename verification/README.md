# D2RSO input-to-cooldown core, modelled in Dafny

D2RSO is a skill-cooldown overlay. Global keyboard, mouse and gamepad input comes in. It is
normalised into `InputEvent`s, matched against the user's skill items, and each triggered
item starts a countdown. This project models that pipeline without its threads and without
its Qt user interface, and proves what the code promises about it.

- `text.dfy` (`Text`): the string built-ins the core relies on: `str.strip`, ASCII
  `lower`/`upper`, digit strings and `int` ↔ `str`.
- `input_events.dfy` (`InputEvents`): `input_events.py`. It holds the alias tables,
  `_simplify_token`, the keyboard, mouse and gamepad normalisers, source inference,
  `normalize_input_code` and `InputEvent` construction (`MakeInputEvent`). A raw code is an
  integer or a string (`RawCode`), and the regexes are predicates on simplified tokens. The
  keyboard alias table exists twice: as written (`AsWritten`), which the program uses to
  build and match events, and corrected with the two shift-key aliases (`WithShiftKeys`, see
  Findings). Every function that depends on the table takes it as a parameter, and each
  shift-key law is proved for both tables.
- `input_events_lemmas.dfy` (`InputEventsLemmas`) and `input_families.dfy` (`InputFamilies`):
  - every code a normaliser returns is canonical for its family and normalises to itself;
  - the family inferred from a canonical code is the family it came from;
  - the spellings of one key agree (`vk65`, `65` and `A`; `button3`, `Buttons3` and `3`).
- `models.py` is split in two:
  - `model_values.dfy` (`ModelValues`): the loosely typed JSON values and the `_as_*`
    converters;
  - `models.dfy` (`Models`): `Profile`, the `SkillItem` class with its hold flag, the
    `Settings` class with `__post_init__` and `ensure_defaults`, and `to_dict`/`from_dict`.
- `models_lemmas.dfy` (`ModelsLemmas`): what repair guarantees, that it is idempotent, and
  the save/load round trip.
- `tracker_engine.dfy` (`TrackerEngine`): `TrackerInputEngine.process_event` as three loops
  over the item objects. An item fires on the state it had before the event, then is armed or
  disarmed. `tracker_engine_lemmas.dfy` states the combo semantics.
- `countdown.dfy` (`Countdown`): `CountdownService` over a timer list kept in dictionary
  insertion order. It has subscribers identified by number and a log of delivered
  notifications. `countdown_lemmas.dfy` holds the lookup, tick and subscriber laws.
- `key_catalog.dfy` (`KeyCatalog`): the key half of `KeyIconRegistry`. It covers parsing the
  key spec, the null entry, the lookup index, `get_key` and `list_key_entries`.
- `input_adapters.dfy` (`InputAdapters`): the keyboard and mouse listener adapters (one
  class; the two are identical at this level), and the gamepad adapter's trigger-axis latch,
  joystick list, runtime set-up and clean-up. `input_adapters_lemmas.dfy` proves the latch
  hysteresis and the quit/init order.
- `router.dfy` (`Router`): `InputRouter` start with rollback, stop with error reporting, the
  event queue and one dispatch step. `router_lemmas.dfy` covers the order of the rollback.
- `runtime.dfy` (`Runtime`): `TrackerRuntimeController` start, stop, item hand-over and
  trigger handling. `runtime_lemmas.dfy` proves that a trigger restarts a countdown rather
  than adding one.
- `profile_editor.dfy` (`ProfileEditor`): the profile and skill list editing of `MainWindow`
  over a `Settings` object and an explicit selected profile id. `profile_editor_lemmas.dfy`
  covers fresh ids, cascading delete and neighbour selection.

Failures of foreign code are parameters: a listener whose `start` raises, a router adapter
that fails, a `pygame` that cannot be resolved. The clock is a parameter too (`now`).

## Model

| member | source | states |
|---|---|---|
| Text.StripSpec | src/d2rso/input_events.py:151-152 | `Strip(s)` is a contiguous slice of `s`: only whitespace is cut, on both sides, and the result neither starts nor ends with whitespace |
| Text.StripIdempotent | src/d2rso/input_events.py:151-152 | stripping twice is stripping once |
| Text.LowerIdempotent | src/d2rso/input_events.py:151-152 | lowering twice is lowering once |
| Text.NatToStringRoundTrip | src/d2rso/input_events.py:281 | printing a natural number and reading it back gives the number |
| InputEvents.MakeInputEvent | src/d2rso/input_events.py:400-423 | a bad source name is an error; otherwise the event holds the code normalised for the resolved family with the given alias table (the program passes the table as written), and a code that does not normalise is a `NotNormalizable` error |
| InputEvents.SimplifyToken | src/d2rso/input_events.py:151-152 | the simplified token holds only lower-case ASCII letters and digits |
| InputEventsLemmas.SimplifyTokenIdempotent | src/d2rso/input_events.py:151-152 | `_simplify_token` returns only lower-case ASCII letters and digits, and applying it twice equals applying it once |
| InputEventsLemmas.SimplifyAlnum | src/d2rso/input_events.py:151-152 | on a string of letters and digits `_simplify_token` is lowering |
| InputEventsLemmas.PunctuationValues | src/d2rso/input_events.py:29-39 | a punctuation alias key is one non-alphanumeric character, and its value is a named keyboard code |
| InputEventsLemmas.KeyboardAliasValues | src/d2rso/input_events.py:41-100 | every keyboard alias value is one of the named keyboard codes |
| InputEventsLemmas.KeyboardTextOfAlnum | src/d2rso/input_events.py:243-275 | a string of letters and digits goes straight to the token rules with its lower-case form |
| InputEventsLemmas.UnaliasedWordUnknown | src/d2rso/input_events.py:275-299 | a lower-case word of two or more letters with no alias matches none of the other token rules and gives None |
| InputEventsLemmas.KeyboardOutputsCanonical | src/d2rso/input_events.py:230-299 | whatever the keyboard normaliser (`NormalizeKeyboardWith`) returns, with either alias table, is a named code, `F<n>` with n < 100 and no leading zero, a letter `A`-`Z`, `D0`-`D9` or `NumPad0`-`NumPad9` |
| InputEventsLemmas.NamedCodeSelfAliased | src/d2rso/input_events.py:41-100 | every named keyboard code is letters only, and its lower-case form is an alias of itself in the corrected table |
| InputEventsLemmas.LetterCodeFixed | src/d2rso/input_events.py:291-292 | with either alias table, `A`-`Z` normalise to themselves |
| InputEventsLemmas.DigitCodeFixed | src/d2rso/input_events.py:287-289 | with either alias table, `D0`-`D9` normalise to themselves |
| InputEventsLemmas.FunctionCodeFixed | src/d2rso/input_events.py:279-281 | with either alias table, every `F<n>` the normaliser can produce normalises to itself |
| InputEventsLemmas.NumPadCodeFixed | src/d2rso/input_events.py:283-285 | with either alias table, `NumPad0`-`NumPad9` normalise to themselves |
| InputEventsLemmas.CanonicalKeyboardFixed | src/d2rso/input_events.py:41-100 | every canonical keyboard code normalises to itself with the corrected table, and with the table as written unless it is `LShiftKey` or `RShiftKey` |
| InputEventsLemmas.CanonicalKeyboardAsWritten | src/d2rso/input_events.py:41-100 | with the table as written a canonical keyboard code normalises to None if it is `LShiftKey` or `RShiftKey`, and to itself otherwise |
| InputEventsLemmas.KeyboardNormalizationIdempotent | src/d2rso/input_events.py:230-299 | with the corrected table, normalising a keyboard code twice gives the same code as normalising it once |
| InputEventsLemmas.KeyboardRenormalizedAsWritten | src/d2rso/input_events.py:230-299 | with the table as written, a normalised keyboard code normalises again to itself, except `LShiftKey` and `RShiftKey`, which normalise to None |
| InputEventsLemmas.LShiftKeySelfAliased | src/d2rso/input_events.py:49-53 | with the corrected table `LShiftKey` normalises to itself |
| InputEventsLemmas.RShiftKeySelfAliased | src/d2rso/input_events.py:54-58 | with the corrected table `RShiftKey` normalises to itself |
| InputEventsLemmas.LShiftKeyLostAsWritten | src/d2rso/input_events.py:49-53 | with the table as written `LShiftKey` normalises to None |
| InputEventsLemmas.RShiftKeyLostAsWritten | src/d2rso/input_events.py:54-58 | with the table as written `RShiftKey` normalises to None |
| InputEventsLemmas.ShiftKeyCodesLostAsWritten | src/d2rso/input_events.py:49-58 | as written, `LShift` gives `LShiftKey` and `RShift` gives `RShiftKey`, but those two outputs normalise to None |
| InputFamilies.KeyboardIntCodes | src/d2rso/input_events.py:236-241 | an integer keyboard code maps iff it is in 65..90 or 48..57: to the upper-case letter with that code, or to `D0`..`D9` |
| InputFamilies.IntSourceInferred | src/d2rso/input_events.py:204-209 | `InferInputSource`: an integer code is mouse for 0..4, gamepad for any other non-negative value, and of no family when negative |
| InputFamilies.AlnumInferred | src/d2rso/input_events.py:211-227 | a code of letters and digits is given the family of its lower-case token |
| InputFamilies.KeyboardCodeInferred | src/d2rso/input_events.py:211-227 | every canonical keyboard code is inferred to be a keyboard code |
| InputFamilies.MouseIndexCanonical | src/d2rso/input_events.py:102-108 | exactly the indices 0..4 map, each to one of the five mouse codes |
| InputFamilies.MouseOutputsCanonical | src/d2rso/input_events.py:302-330 | the mouse normaliser (`NormalizeMouseCode`) returns only `MOUSE1`, `MOUSE2`, `MOUSE3`, `MOUSEX1` or `MOUSEX2` |
| InputFamilies.MouseCodeFixed | src/d2rso/input_events.py:110-137 | each mouse code normalises to itself and is inferred to be a mouse code |
| InputFamilies.MouseDigitsSpelling | src/d2rso/input_events.py:318-319 | a digit string names the same mouse button as its number |
| InputFamilies.MouseNumberSpelling | src/d2rso/input_events.py:326-328 | `mouse<n>` gives the button of index n-1, and is inferred to be a mouse code |
| InputFamilies.MouseNumberInferred | src/d2rso/input_events.py:216-217 | a lower-case token starting with `mouse` is inferred to be a mouse code |
| InputFamilies.ButtonsIndexCanonical | src/d2rso/input_events.py:190-195 | exactly the non-negative integers map; 48..57 become `Buttons<v-48>`, others `Buttons<v>`, and the code is canonical |
| InputFamilies.GamepadOutputsCanonical | src/d2rso/input_events.py:333-367 | the gamepad normaliser (`NormalizeGamepadCode`) returns only canonical `Buttons<k>` codes |
| InputFamilies.GamepadCodeFixed | src/d2rso/input_events.py:349-351 | every canonical `Buttons<k>` normalises to itself and is inferred to be a gamepad code |
| InputFamilies.ButtonsInferred | src/d2rso/input_events.py:218-223 | `buttons<n>` is inferred to be a gamepad code |
| InputFamilies.ButtonNumberInferred | src/d2rso/input_events.py:216-223 | `button<n>` is a mouse code when it is a mouse alias (`button1`..`button5`) and a gamepad code otherwise |
| InputFamilies.GamepadButtonInferred | src/d2rso/input_events.py:218-223 | `gamepadbutton<n>` is inferred to be a gamepad code |
| InputFamilies.JoystickButtonsInferred | src/d2rso/input_events.py:221-225 | `joystickoffsetbuttons<n>` is inferred to be a gamepad code |
| InputFamilies.ButtonsSpelling | src/d2rso/input_events.py:349-351 | `buttons<n>` names the same button as the integer n |
| InputFamilies.GamepadButtonSpelling | src/d2rso/input_events.py:353-355 | `button<n>` and `gamepadbutton<n>` name the same button as the integer n |
| InputFamilies.JoystickButtonsSpelling | src/d2rso/input_events.py:346-359 | `joystickoffsetbuttons<n>` names the same button as the integer n |
| InputFamilies.GamepadDigitsSpelling | src/d2rso/input_events.py:364-365 | a digit string names the same button as its number |
| InputFamilies.VirtualKeyMatchesCharacter | src/d2rso/input_events.py:236-241 | the virtual-key number of an upper-case letter or digit normalises like the one-character string |
| InputFamilies.VirtualKeySpelling | src/d2rso/input_events.py:296-297 | `vk<n>` normalises like the integer n |
| InputFamilies.FunctionKeySpelling | src/d2rso/input_events.py:279-281 | `f<one or two digits>` gives `F<n>` with leading zeros dropped |
| InputFamilies.NumPadSpelling | src/d2rso/input_events.py:283-285 | `numpad<d>` and `num<d>` give `NumPad<d>` |
| InputFamilies.LetterSpelling | src/d2rso/input_events.py:291-292 | a single letter of either case gives the upper-case letter |
| InputFamilies.DigitSpelling | src/d2rso/input_events.py:293-294 | a single digit d gives `D<d>` |
| InputFamilies.NormalizeForCanonical | src/d2rso/input_events.py:384-388 | `NormalizeFor`, with either alias table, returns only codes canonical for the family asked for |
| InputFamilies.CanonicalCodeFixed | src/d2rso/input_events.py:370-388 | with the corrected table, a canonical code normalises to itself for its family and is inferred to be of that family |
| InputFamilies.CanonicalCodeAsWritten | src/d2rso/input_events.py:370-388 | with the table as written a canonical code normalises to itself for its family, except the two shift-key codes, which are keyboard codes and normalise to None; the code is inferred to be of its family |
| InputFamilies.EventCodeRoundTrip | src/d2rso/input_events.py:391-423 | with the corrected table: an event's code is canonical for its source; rebuilding the event from its own code and source gives the same event; normalising the code without a hint returns it unchanged |
| InputFamilies.EventCodeRoundTripAsWritten | src/d2rso/input_events.py:391-423 | with the table as written: an event's code is canonical for its source; rebuilding the event from its code gives the same event, except for `LShiftKey`/`RShiftKey`, where it fails with `NotNormalizable`; normalising the code without a hint gives it back, or None for the shift-key codes |
| InputFamilies.SourceNameResolution | src/d2rso/input_events.py:175-187 | a source name is an `EmptySource` error iff its simplified token is empty, an `UnsupportedSource` error iff the token is non-empty and has no alias, and a resolved name resolves as its simplified token does |
| InputFamilies.SourceAliasResolves | src/d2rso/input_events.py:138-148 | every source alias token resolves to the family it names |
| InputFamilies.HintOfInferredFamily | src/d2rso/input_events.py:370-388 | `normalize_input_code` without a hint never fails; a hint naming the inferred family gives the same result as no hint; a code of no inferable family gives None |
| InputFamilies.EventRejectsUnknownCode | src/d2rso/input_events.py:400-406 | a code that does not normalise for the family makes construction fail with that code and family |
| ModelValues.GetValueSpec | src/d2rso/models.py:15-23 | `_get_value` returns the default iff no key is present, and otherwise the value of the first key present |
| ModelValues.TruncateReal | src/d2rso/models.py:26-30 | `int()` of a float truncates toward zero |
| ModelValues.AsIntOfPrinted | src/d2rso/models.py:26-30 | `_as_int` reads back a printed integer |
| ModelValues.AsFloatOfPrinted | src/d2rso/models.py:33-37 | `_as_float` reads back a printed integer as that number |
| ModelValues.AsFloatOfIntegral | src/d2rso/models.py:26-37 | on integers and booleans `_as_float` is `_as_int` widened |
| ModelValues.AsBoolIgnoresSpaceAndCase | src/d2rso/models.py:40-51 | `_as_bool` of a string depends only on it trimmed and lowered |
| ModelValues.AsBoolWords | src/d2rso/models.py:40-51 | the truthy words give true, the falsy words false, and any other string the default |
| ModelValues.AsKeyCodeTrimmed | src/d2rso/models.py:60-68 | `_as_key_code` returns the default, None, or a non-empty trimmed code, and a trimmed code unchanged |
| Models.SkillItem.SelectKeyPressed | src/d2rso/models.py:114-121 | the item becomes held iff it was held or has a select key, after which `skill_key_pressed()` is true |
| Models.SkillItem.SelectKeyReleased | src/d2rso/models.py:114-125 | the hold is cleared, and `skill_key_pressed()` then holds iff there is no select key |
| Models.SkillItem.ResetKeys | src/d2rso/models.py:114-129 | the hold is cleared, and `skill_key_pressed()` then holds iff there is no select key |
| Models.ProfileIdsSpec | src/d2rso/models.py:240 | the id set of a profile list holds exactly the ids of its profiles |
| Models.RepairedProfilesHaveDefault | src/d2rso/models.py:235-238 | after the profile repair, profile 0 exists |
| Models.RepairSkillItems | src/d2rso/models.py:244-248 | the loop over the items computes the item repair |
| Models.Settings.RepairProfilesAndSelection | src/d2rso/models.py:235-242 | the profile list and the selection are repaired as `ensure_defaults` does |
| Models.Settings.RepairDisplay | src/d2rso/models.py:250-258 | non-positive scales become 1.0, and both red-overlay fields become the effective value |
| Models.Settings.EnsureDefaults | src/d2rso/models.py:226-258 | the new settings are `EnsureDefaultsData` of the old ones, field by field |
| Models.Settings.constructor | src/d2rso/models.py:210-216 | construction applies the red-overlay fallback and then repairs |
| ModelsLemmas.EnsureDefaultsRepairs | src/d2rso/models.py:226-258 | after repair profile 0 exists; the selection and every item name an existing profile; durations are ≥ 0; scales are > 0; both red fields are equal and ≥ 0 |
| ModelsLemmas.EnsureDefaultsKeeps | src/d2rso/models.py:235-248 | repair prepends the default profile only when id 0 is missing and keeps the profiles in order; it keeps a valid selection and every item's valid profile, non-negative duration and other fields; nothing else changes |
| ModelsLemmas.RepairedIsFixed | src/d2rso/models.py:226-258 | repair changes nothing in repaired settings |
| ModelsLemmas.EnsureDefaultsIdempotent | src/d2rso/models.py:226-258 | a second `ensure_defaults` changes nothing |
| ModelsLemmas.PostInitRepairs | src/d2rso/models.py:210-216 | constructed settings are repaired, and the red-overlay value falls back to the tracker field when its own is ≤ 0 |
| ModelsLemmas.DefaultSettingsRepaired | src/d2rso/models.py:192-216 | the default settings are already repaired and have only profile 0 |
| ModelsLemmas.RepairItemKeepsLoadable | src/d2rso/models.py:244-248 | a repaired item has a duration ≥ 0 and, when the selection exists, an existing profile |
| ModelsLemmas.SkillFromDictKeys | src/d2rso/models.py:147-160 | an absent skill key gives `MOUSE2`, while an explicit null or blank gives None; an absent select key gives None |
| ModelsLemmas.SkillFromDictLoadable | src/d2rso/models.py:142-188 | a negative `time_length` becomes 5.0, and every loaded item has trimmed keys and a duration ≥ 0 |
| ModelsLemmas.SkillFromEmptyDict | src/d2rso/models.py:102-112 | loading an empty dictionary gives the default skill item |
| ModelsLemmas.ProfileRoundTrip | src/d2rso/models.py:78-94 | `Profile.from_dict(p.to_dict()) == p` |
| ModelsLemmas.ProfilesRoundTrip | src/d2rso/models.py:287-291 | loading a saved profile list gives the list back |
| ModelsLemmas.KeyRoundTrip | src/d2rso/models.py:60-68 | a trimmed key code, or None, survives saving and loading |
| ModelsLemmas.SkillRoundTrip | src/d2rso/models.py:131-188 | a loadable item survives `to_dict` and `from_dict` |
| ModelsLemmas.SkillsRoundTrip | src/d2rso/models.py:293-297 | loading a saved list of loadable items gives the list back |
| ModelsLemmas.SettingsFieldsRoundTrip | src/d2rso/models.py:260-378 | reading back saved settings gives every field, with both red fields at the effective value |
| ModelsLemmas.SettingsRoundTrip | src/d2rso/models.py:260-382 | repaired settings with loadable items survive `to_dict` and `from_dict` |
| ModelsLemmas.LoadIsStable | src/d2rso/models.py:260-382 | for any payload, what `SettingsFromDict` loads survives a further save and load unchanged |
| TrackerEngine.TrackerInputEngine.SetSkillItems | src/d2rso/tracker_engine.py:35-37 | the engine holds exactly the given items |
| TrackerEngine.TrackerInputEngine.ProcessEvent | src/d2rso/tracker_engine.py:39-67 | configurations are unchanged; each item's hold follows `HeldAfter`; the result is the items that fire on the states before the event, in configured order |
| TrackerEngine.TrackerInputEngine.CollectFired | src/d2rso/tracker_engine.py:54-59 | the fire loop returns exactly the items that fire on the current states, in order |
| TrackerEngine.TrackerInputEngine.UpdateHolds | src/d2rso/tracker_engine.py:46-52 | the release and arm loops leave every item's hold at `HeldAfter` of its old state and change nothing else |
| TrackerEngine.TrackerInputEngine.UpdateHold | src/d2rso/tracker_engine.py:61-65 | one item's hold becomes `HeldAfter` of its old state |
| TrackerEngine.TrueIndicesSpec | src/d2rso/tracker_engine.py:54-59 | the positions collected are exactly the flagged ones, in increasing order |
| TrackerEngine.FiredIndicesSpec | src/d2rso/tracker_engine.py:54-59 | the fired positions are exactly those whose item fires, in configured order |
| TrackerEngine.ReleaseFiresNothing | src/d2rso/tracker_engine.py:46-52 | a release event fires no item |
| TrackerEngineLemmas.CanonicalCodeMatches | src/d2rso/tracker_engine.py:12-20 | with the corrected table, a configured canonical code matches an event iff the two codes are equal ignoring case |
| TrackerEngineLemmas.CanonicalCodeMatchesAsWritten | src/d2rso/tracker_engine.py:12-20 | `MatchesEventCode` with the table as written: a configured canonical code matches an event iff it is not a shift-key code and the two codes are equal ignoring case |
| TrackerEngineLemmas.EventMatchesItsCode | src/d2rso/tracker_engine.py:12-20 | with the corrected table, the code stored in an event matches that event |
| TrackerEngineLemmas.EventMatchesItsCodeAsWritten | src/d2rso/tracker_engine.py:12-20 | with the table as written, the code stored in an event matches that event iff it is not `LShiftKey` or `RShiftKey` |
| TrackerEngineLemmas.ShiftEventUnmatchedAsWritten | src/d2rso/tracker_engine.py:12-20 | pressing `LShift` builds an event with code `LShiftKey`, which a configured `LShiftKey` does not match as written but does match with the corrected table; an item whose skill key is `LShiftKey` fires on no event |
| TrackerEngineLemmas.ShiftKeyMatches | src/d2rso/tracker_engine.py:12-20 | a configured shift-key code matches no event with the table as written, and with the corrected table matches exactly the events with its code ignoring case |
| TrackerEngineLemmas.ReleaseOnlyDisarms | src/d2rso/tracker_engine.py:46-52 | a release never fires, and only clears the hold of an enabled item whose select key matches |
| TrackerEngineLemmas.PressArms | src/d2rso/tracker_engine.py:61-65 | pressing the select key of an enabled item leaves it held |
| TrackerEngineLemmas.FireBeforeArm | src/d2rso/tracker_engine.py:54-65 | an item fires only without a select key or when already held, so one event never both arms and fires it |
| TrackerEngineLemmas.DisabledInert | src/d2rso/tracker_engine.py:47-63 | a disabled item never fires and its hold never changes |
| TrackerEngineLemmas.UnrelatedEventInert | src/d2rso/tracker_engine.py:39-67 | an event matching neither key of an item neither fires it nor changes its hold |
| TrackerEngineLemmas.SkillOnlyItem | src/d2rso/tracker_engine.py:54-59 | an item without a select key is never held and fires on every press of its enabled skill key |
| TrackerEngineLemmas.FiredItems | src/d2rso/tracker_engine.py:54-59 | on a press an item is returned iff it is enabled, its skill key matches and it has no select key or was held before the event; a release returns nothing |
| TrackerEngineLemmas.ComboSequence | src/d2rso/tracker_engine.py:39-67 | skill, select, other, skill, skill, release, skill fire exactly at the two skill presses after the select press |
| TrackerEngineLemmas.DisabledNeverFires | src/d2rso/tracker_engine.py:47-56 | a disabled item fires on no event of any sequence |
| Countdown.Remaining | src/d2rso/countdown_service.py:52-53 | remaining time is ≥ 0, and 0 exactly when the end time has passed |
| Countdown.IndexOf | src/d2rso/countdown_service.py:111 | the position of the first timer with the id, or the table's length when there is none |
| Countdown.ValidateDuration | src/d2rso/countdown_service.py:228-233 | a duration is accepted iff it is ≥ 0, and accepted unchanged |
| Countdown.Find | src/d2rso/countdown_service.py:179-193 | a timer is found iff one has the id, and what is found has that id |
| Countdown.InsertById | src/d2rso/countdown_service.py:195-207 | inserting adds the timer and loses none |
| Countdown.SortById | src/d2rso/countdown_service.py:195-207 | sorting is a permutation |
| Countdown.SortByIdSorted | src/d2rso/countdown_service.py:195-207 | sorting timers with distinct ids orders them strictly by id |
| Countdown.SortedSnapshots | src/d2rso/countdown_service.py:195-207 | the sorted snapshots have one entry per timer, strictly by id, and are exactly the timers' snapshots |
| Countdown.WithoutKeepsUnique | src/d2rso/countdown_service.py:99-100 | removing an id keeps one timer per id and takes out exactly that id's timers |
| Countdown.UpsertKeepsUnique | src/d2rso/countdown_service.py:111-121 | starting or restarting a timer keeps one timer per id |
| Countdown.SurvivorsKeepValid | src/d2rso/countdown_service.py:160-162 | the timers left by a tick have distinct ids and have not expired |
| Countdown.RemoveFirstKeepsOthers | src/d2rso/countdown_service.py:74-77 | unsubscribing a present callback removes it and keeps the others, without duplicates |
| Countdown.CountdownService.constructor | src/d2rso/countdown_service.py:64-67 | a new service has no timers, subscribers or deliveries |
| Countdown.CountdownService.Subscribe | src/d2rso/countdown_service.py:69-72 | a callback is appended unless already subscribed |
| Countdown.CountdownService.Unsubscribe | src/d2rso/countdown_service.py:74-77 | the callback's entry is removed |
| Countdown.CountdownService.Emit | src/d2rso/countdown_service.py:223-226 | the event is delivered once to every subscriber, in subscription order |
| Countdown.CountdownService.Refresh | src/d2rso/countdown_service.py:84-123 | a negative duration is rejected with no change; 0 removes the id's timer and reports `REMOVED` completed with 0 remaining; d > 0 starts or restarts one timer at `now` ending at `now + d` and reports `UPDATED` with d remaining; the event is delivered |
| Countdown.CountdownService.Remove | src/d2rso/countdown_service.py:125-148 | an absent id gives None and no change; otherwise the timer is removed and reported with remaining 0 if completed, else its remaining time, and the event is delivered |
| Countdown.CountdownService.EmitUpdates | src/d2rso/countdown_service.py:150-177 | one event per timer present at the call; expired timers are removed and reported `REMOVED` completed, the rest `UPDATED`; all events are delivered after the loop |
| Countdown.CountdownService.TickTimers | src/d2rso/countdown_service.py:160-173 | the loop yields the tick events and leaves exactly the unexpired timers |
| Countdown.CountdownService.EmitAll | src/d2rso/countdown_service.py:175-176 | the events are delivered in order, each to every subscriber |
| Countdown.CountdownService.GetActive | src/d2rso/countdown_service.py:179-193 | a snapshot is returned iff the id has a timer, with that id and remaining ≥ 0 |
| Countdown.CountdownService.ListActive | src/d2rso/countdown_service.py:195-207 | `active_count` entries, strictly ordered by skill id, exactly the snapshots of the timers |
| CountdownLemmas.RemainingBounds | src/d2rso/countdown_service.py:52-53 | remaining time lies between 0 and the duration once the timer has started |
| CountdownLemmas.ScheduledRemaining | src/d2rso/countdown_service.py:111-123 | a fresh timer starts at `now`, ends at `now + d`, and its `UPDATED` event reports d remaining |
| CountdownLemmas.FindWithout | src/d2rso/countdown_service.py:99-100 | after removing an id (`Without`), it has no timer and every other id keeps its timer |
| CountdownLemmas.WithoutCount | src/d2rso/countdown_service.py:99-100 | removing an id shrinks the table by one iff it had a timer |
| CountdownLemmas.FindUpsert | src/d2rso/countdown_service.py:111-123 | after a refresh (`Upsert`) the id has exactly the new timer, other ids are untouched, and the count grows only for a new id |
| CountdownLemmas.TickReportsEveryTimer | src/d2rso/countdown_service.py:157-177 | each tick event carries its timer's id and duration, is `REMOVED` completed with 0 iff the timer expired, and `UPDATED` with its positive remaining time otherwise |
| CountdownLemmas.TickKeepsUnexpired | src/d2rso/countdown_service.py:157-177 | a tick (`Survivors`) keeps exactly the unexpired timers, and each survivor ends after `now` |
| CountdownLemmas.TickFind | src/d2rso/countdown_service.py:157-177 | after a tick an id keeps its timer iff that timer had not expired |
| CountdownLemmas.SubscriberList | src/d2rso/countdown_service.py:69-77 | subscribing and unsubscribing keep the subscriber list free of duplicates |
| CountdownLemmas.DeliverAllAppend | src/d2rso/countdown_service.py:223-226 | delivering two event lists is delivering one after the other |
| KeyCatalog.SplitOn | src/d2rso/key_icon_registry.py:49 | splitting gives at least one part, none containing the separator |
| KeyCatalog.SplitJoin | src/d2rso/key_icon_registry.py:49 | joining the parts with the separator gives the string back |
| KeyCatalog.SplitFirst | src/d2rso/key_icon_registry.py:53 | a string splits at its first bar, and only if it has one |
| KeyCatalog.ParseItem | src/d2rso/key_icon_registry.py:50-57 | a blank item gives no entry; a plain item has name == code, both trimmed; `name\|code` splits at the first bar |
| KeyCatalog.ParseKeyEntries | src/d2rso/key_icon_registry.py:47-61 | the parsing loop computes one entry per non-blank item, in order, followed by the null entry |
| KeyCatalog.ParsedEntriesShape | src/d2rso/key_icon_registry.py:47-61 | the last entry is the null entry, every other entry has a name and a code, and the first null-code entry is the final one |
| KeyCatalog.ParseItemsAppend | src/d2rso/key_icon_registry.py:49-57 | parsing two item lists is parsing one after the other |
| KeyCatalog.NormalizeLookupIdempotent | src/d2rso/key_icon_registry.py:31-32 | a normalised lookup key has no backslash and no upper-case letter, and normalising it again changes nothing |
| KeyCatalog.CodeIndexSpec | src/d2rso/key_icon_registry.py:98-102 | a key is in the index iff some entry's normalised code is that key, and it maps to such an entry |
| KeyCatalog.WithCodes | src/d2rso/key_icon_registry.py:119 | the filter keeps only entries that have a code |
| KeyCatalog.KeyIconRegistry.constructor | src/d2rso/key_icon_registry.py:94-102 | the registry holds the parsed entries, the first null-code entry and the code index |
| KeyCatalog.KeyIconRegistry.GetKey | src/d2rso/key_icon_registry.py:121-127 | None or a blank code gives the null entry; otherwise an entry is found iff some entry's normalised code equals the normalised argument, and it is that entry |
| KeyCatalog.KeyIconRegistry.ListKeyEntries | src/d2rso/key_icon_registry.py:116-119 | with `include_empty` all entries; without, all entries except the null-code ones, in order |
| KeyCatalog.FirstEntryIsA | src/d2rso/key_icon_registry.py:11-25 | the first catalog entry is `A` |
| InputAdapters.ListenerAdapter.constructor | src/d2rso/input_router.py:209-224 | a new adapter is not running and has made no listener calls |
| InputAdapters.ListenerAdapter.Start | src/d2rso/input_router.py:233-243 | starting a running adapter does nothing; if the listener's start fails, the listener is stopped with errors suppressed and the adapter stays stopped; otherwise it runs with that listener |
| InputAdapters.ListenerAdapter.Stop | src/d2rso/input_router.py:245-253 | stopping a stopped adapter does nothing; otherwise the adapter stops, its listener is stopped and joined, and the error is raised iff one of those failed |
| InputAdapters.ListenerAdapter.StopListener | src/d2rso/input_router.py:736-761 | stop then join are called, and an error is raised iff one failed and errors are not suppressed |
| InputAdapters.GamepadAdapter.constructor | src/d2rso/input_router.py:340-362 | a new adapter is idle, with no latches, signals or device calls |
| InputAdapters.GamepadAdapter.HandleAxisMotion | src/d2rso/input_router.py:482-501 | the latch and the signals move by one `AxisStep` |
| InputAdapters.GamepadAdapter.RefreshJoysticks | src/d2rso/input_router.py:503-519 | ends with `max(0, count)` handles numbered by index; keeps the first `min(old, count)`; quits the surplus from the end; initialises new handles in index order |
| InputAdapters.GamepadAdapter.PopJoysticks | src/d2rso/input_router.py:508-512 | the pop loop shortens the list to the target, keeping its prefix, and quits the popped handles last first |
| InputAdapters.GamepadAdapter.AppendJoysticks | src/d2rso/input_router.py:514-519 | the append loop keeps the list and appends handle i, initialised, for each new index i |
| InputAdapters.GamepadAdapter.CleanupRuntime | src/d2rso/input_router.py:521-556 | without pygame nothing changes; otherwise all handles are quit last first, then the joystick module and pygame if owned, and joysticks, latches and ownership flags are cleared |
| InputAdapters.GamepadAdapter.InitializeRuntime | src/d2rso/input_router.py:409-426 | latches are cleared; it raises iff pygame cannot be resolved or the joystick count fails; without pygame nothing else changes; with pygame, each module not yet initialised is initialised (pygame first) and becomes owned, and on success the handles are reconciled with the count after those calls; on an idle adapter success holds handles `0 .. n-1` and makes exactly the module inits then one init per handle |
| InputAdapters.GamepadAdapter.InitModules | src/d2rso/input_router.py:413-424 | initialises pygame, then the joystick module, each only when not yet initialised, and takes ownership of what it initialised |
| InputAdapters.GamepadAdapter.Start | src/d2rso/input_router.py:370-392 | starting a running adapter does nothing; from stopped it raises iff pygame cannot be resolved, the count fails or the thread fails; it makes exactly the calls of `GamepadStartCalls` (the module inits and handle inits, followed on a failure by the quits of everything it took); on success it runs a thread, holds handles `0 .. n-1` and owns exactly the modules it initialised; on failure it is stopped and idle |
| InputAdapters.GamepadAdapter.Launch | src/d2rso/input_router.py:374-392 | the part of `start` after the early return, with the same outcome, calls and ownership |
| InputAdapters.GamepadAdapter.AbortStart | src/d2rso/input_router.py:384-390 | the failure branch of `start`: stopped, thread dropped, stop requested, and the runtime cleaned up as in `_cleanup_runtime` |
| InputAdapters.AbortedStartCalls | src/d2rso/input_router.py:384-390 | a start that fails after resolving pygame quits, in its clean-up, exactly the handles and modules it took |
| InputAdapters.CompletedStartCalls | src/d2rso/input_router.py:376-392 | a start that does not fail makes the module inits and then one init per device |
| InputAdapters.GamepadAdapter.Stop | src/d2rso/input_router.py:395-407 | stopping a running adapter requests the stop and cleans it up as in `_cleanup_runtime`, leaving it idle; stopping an idle adapter makes no device call and keeps its trigger latch |
| InputAdaptersLemmas.OnlyTriggerAxes | src/d2rso/input_router.py:482-491 | a reading off axes 4 and 5, or one that does not convert, changes nothing and signals nothing |
| InputAdaptersLemmas.TriggerHysteresis | src/d2rso/input_router.py:21-26 | on axes 4 and 5: a press iff unlatched and value ≥ 0.5, a release iff latched and value ≤ 0.25, otherwise nothing; the latch follows and other buttons are untouched |
| InputAdaptersLemmas.TriggerSignalsAlternate | src/d2rso/input_router.py:493-501 | from released triggers each virtual button's signals alternate press and release, starting with a press, and it is latched iff their number is odd |
| InputAdaptersLemmas.TriggerExample | src/d2rso/input_router.py:493-501 | 0.49, 0.6, 0.9, 0.2 on axis 4 give one press and one release of button 4 |
| InputAdaptersLemmas.PopQuitsFromEnd | src/d2rso/input_router.py:508-512 | the surplus handles are quit from the last one backwards, one call each |
| InputAdaptersLemmas.NewInitsInOrder | src/d2rso/input_router.py:514-519 | one initialisation per new index, in increasing order |
| InputAdaptersLemmas.QuitsOrInits | src/d2rso/input_router.py:503-519 | one reconciliation either quits handles or initialises them, never both |
| InputAdaptersLemmas.HandleCallsOnly | src/d2rso/input_router.py:503-556 | the handle calls of a start and its stop are handle inits and quits, with no module call among them |
| InputAdaptersLemmas.PygameCallCounts | src/d2rso/input_router.py:413-416 | around calls that touch no module, a start's inits and the clean-up's quits hold one pygame `init` and one `quit` when pygame was not initialised before, and none when it was |
| InputAdaptersLemmas.JoystickModuleCallCounts | src/d2rso/input_router.py:418-424 | the same for the joystick module |
| InputAdaptersLemmas.StartStopSession | src/d2rso/input_router.py:370-407 | a fresh adapter given pygame, started and then stopped if the start succeeded, makes exactly the session's calls; pygame and the joystick module are each initialised once and quit once when they were not initialised before (also when the count or the thread start fails), and untouched when they were |
| InputAdaptersLemmas.SessionOfStartAndStop | src/d2rso/input_router.py:370-407 | a start on resolved pygame, followed by a stop when it succeeded, makes exactly the calls of `SessionCalls` |
| InputAdaptersLemmas.SessionCallCounts | src/d2rso/input_router.py:413-424 | a session's calls hold each module's `init` and `quit` once when it was not initialised before, and neither when it was |
| Router.FirstFailure | src/d2rso/input_router.py:622-627 | the first failing adapter: all before it succeed |
| Router.LastFailure | src/d2rso/input_router.py:642-653 | the cause reported is the highest-indexed failing stop, which is the first met in reverse order, and there is none iff every stop succeeded |
| Router.InputRouter.constructor | src/d2rso/input_router.py:562-593 | a new router is not running, with an empty queue |
| Router.InputRouter.SetSkillItems | src/d2rso/input_router.py:603-604 | the engine receives the items |
| Router.InputRouter.Start | src/d2rso/input_router.py:606-634 | a running router does nothing; otherwise the queue is drained and adapters start in order; if adapter f fails, adapters 0..f-1 are stopped in reverse order, the router stops and the failure is reported |
| Router.InputRouter.Stop | src/d2rso/input_router.py:636-654 | a stopped router does nothing; otherwise every adapter stop is attempted in reverse order, the router ends stopped with an empty queue, and a failure is reported iff some stop failed |
| Router.InputRouter.ShutdownWorker | src/d2rso/input_router.py:688-707 | the router ends stopped and not accepting, with an empty queue |
| Router.InputRouter.RouteInputEvent | src/d2rso/input_router.py:656-661 | an event is queued iff the router accepts events |
| Router.InputRouter.DispatchNext | src/d2rso/input_router.py:663-686 | with an empty queue nothing changes and nothing is returned; otherwise the oldest event is taken off and processed by the engine: the triggered items are returned, every engine item keeps its configuration, and its hold becomes `HeldAfter` its old state and the event |
| RouterLemmas.RollbackStopsStarted | src/d2rso/input_router.py:622-634 | after failure at adapter f: adapters 0..f were started in order, exactly 0..f-1 were stopped in reverse order, and f was not stopped |
| RouterLemmas.StopCauseIsFirstMetInReverse | src/d2rso/input_router.py:642-653 | the reported stop cause is the first failure met walking the adapters in reverse |
| Runtime.ResetSkillSequenceState | src/d2rso/tracker_runtime.py:24-27 | every item is disarmed and nothing else about it changes |
| Runtime.NonNegative | src/d2rso/tracker_runtime.py:120 | `max(0.0, x)` |
| Runtime.TrackerRuntimeController.constructor | src/d2rso/tracker_runtime.py:36-54 | no service and no items |
| Runtime.TrackerRuntimeController.SetSkillItems | src/d2rso/tracker_runtime.py:68-73 | the items are kept, and forwarded to the router only while it runs |
| Runtime.TrackerRuntimeController.Start | src/d2rso/tracker_runtime.py:75-96 | running with a service returns that same service, forwards the given items to the router and leaves every hold unchanged; otherwise items are disarmed and handed over, a fresh service is made and the router started; on failure the router's items are emptied, items disarmed, the service dropped and the failure reported |
| Runtime.TrackerRuntimeController.Launch | src/d2rso/tracker_runtime.py:82-96 | the part of `start` after the early return, with the same rollback |
| Runtime.TrackerRuntimeController.Stop | src/d2rso/tracker_runtime.py:98-111 | whatever the router's stop does, its items are emptied, items disarmed and the service dropped; the router's failure is reported afterwards |
| Runtime.TrackerRuntimeController.OnRouterTriggered | src/d2rso/tracker_runtime.py:113-122 | nothing is emitted iff there are no items; otherwise the trigger payload |
| Runtime.TrackerRuntimeController.HandleTriggeredSkills | src/d2rso/tracker_runtime.py:130-143 | ignored without a service; otherwise each row refreshes its countdown in order |
| RuntimeLemmas.LastDuration | src/d2rso/tracker_runtime.py:136-143 | the duration of an id's last row is never negative |
| RuntimeLemmas.RefreshAllKeepsUnique | src/d2rso/tracker_runtime.py:136-143 | handling a payload keeps one countdown per id |
| RuntimeLemmas.RefreshAllFind | src/d2rso/tracker_runtime.py:136-143 | after a payload an id without a row keeps its countdown; otherwise its last row decides: 0 removes it, d > 0 restarts it at `now` |
| RuntimeLemmas.RepeatedTriggerKeepsOne | src/d2rso/tracker_runtime.py:136-143 | triggering a skill twice leaves one countdown for it, so the count grows only for a new skill |
| ProfileEditor.MaxOr | src/d2rso/main_window.py:141-143 | the maximum of a list, or the default when it is empty |
| ProfileEditor.ProfileIndex | src/d2rso/main_window.py:778-785 | the first position holding the id, or the length when none does |
| ProfileEditor.ProfilesWithout | src/d2rso/main_window.py:174-176 | exactly the profiles without the id remain |
| ProfileEditor.SkillsOfOtherProfiles | src/d2rso/main_window.py:177-179 | exactly the items of other profiles remain |
| ProfileEditor.SkillsWithoutId | src/d2rso/main_window.py:211-214 | exactly the items without the id remain, and the list is unchanged iff no item had it |
| ProfileEditor.ReplacementProfileId | src/d2rso/main_window.py:769-787 | 0 when no profile remains, otherwise the id of a remaining profile |
| ProfileEditor.ProfileEditor.constructor | src/d2rso/main_window.py:45-93 | the editor holds the settings and the selected profile |
| ProfileEditor.ProfileEditor.CurrentProfileIndex | src/d2rso/main_window.py:453-464 | the position of the selected profile, or none when nothing is selected or it does not exist |
| ProfileEditor.ProfileEditor.RefreshProfiles | src/d2rso/main_window.py:466-494 | the target is selected if it exists, else the first profile, else nothing; a selection is saved as the last selected profile |
| ProfileEditor.ProfileEditor.AddProfile | src/d2rso/main_window.py:136-149 | a blank name changes nothing; otherwise a profile with the next id and the trimmed name is appended and selected |
| ProfileEditor.ProfileEditor.RenameCurrentProfile | src/d2rso/main_window.py:151-163 | succeeds iff a profile is selected and the name is not blank, and then sets its trimmed name only |
| ProfileEditor.ProfileEditor.RemoveCurrentProfile | src/d2rso/main_window.py:165-186 | refuses without a selected profile or with one profile left; otherwise removes the profile and its items, repairs, and selects the replacement |
| ProfileEditor.ProfileEditor.AddSkillToCurrentProfile | src/d2rso/main_window.py:188-207 | without a selected profile nothing; otherwise appends an enabled item with the next id for that profile, no select key, skill key `MOUSE2` and 5 seconds |
| ProfileEditor.ProfileEditor.RemoveSkill | src/d2rso/main_window.py:209-218 | removes the items with that id, and reports true iff there was one |
| ProfileEditor.RemoveProfileData | src/d2rso/main_window.py:174-181 | the settings become the removed-and-repaired data |
| ProfileEditor.ReplacementIsListed | src/d2rso/main_window.py:180-185 | the replacement is among the profiles after repair, so the refresh selects it |
| ProfileEditorLemmas.NextProfileIdFresh | src/d2rso/main_window.py:141-143 | `NextProfileId`: a new profile id exceeds every existing one, and is 0 for the first profile |
| ProfileEditorLemmas.NextSkillIdFresh | src/d2rso/main_window.py:193 | `NextSkillId`: a new skill id exceeds every existing one, and is 1 for the first item |
| ProfileEditorLemmas.ProfilesWithoutAt | src/d2rso/main_window.py:174-176 | with unique ids, removing an id cuts out exactly the profile at its position |
| ProfileEditorLemmas.ReplacementIsNeighbour | src/d2rso/main_window.py:769-787 | with unique ids, the replacement is the profile after the removed one, or the one before it when it was last |
| ProfileEditorLemmas.ReplacementExample | src/d2rso/main_window.py:769-787 | removing 2 from profiles 0, 2, 3 selects 3 |
| ProfileEditorLemmas.RemovalCascades | src/d2rso/main_window.py:165-186 | after removal profile 0 exists; the selection and every item name existing profiles; a removed id other than 0 is gone from profiles and items; removing 0 brings back the default profile |
| ProfileEditorLemmas.EnvVarEnabledTrimmed | src/d2rso/main_window.py:35-39 | an unset variable is off, and surrounding whitespace does not matter |
| ProfileEditorLemmas.EnvVarEnabledExamples | src/d2rso/main_window.py:35-39 | `1`, `TRUE`, `Yes` and `on` enable the switch |
| ProfileEditorLemmas.EnvVarDisabledExamples | src/d2rso/main_window.py:35-39 | `0`, `off` and the empty value do not |

## Left out

- Time: `_resolve_now` and the `time_provider` are left out. Every countdown operation takes
  `now` as a parameter, and event timestamps are parameters.
- Countdown callbacks are numbers. Delivering an event appends `(subscriber, event)` to a
  log; what a callback does is not modelled. `_CountdownState.refresh` changes a state object
  in place; here the timer value at the same position is replaced (`Upsert`).
- Countdown.CountdownService.Refresh: exceptions raised by a callback during delivery are not
  modelled.
- Icons and the filesystem are left out: `reload_icons`, `get_icon*`, `list_icons` and the
  registry singleton. The default icon name that `add_skill_to_current_profile` takes from the
  icon list is a parameter.
- KeyCatalog.FirstEntryIsA: concrete `get_key` lookups in the full key catalog (for example
  `get_key("mouse2")`) are not stated. Only the first entry is proved from the spec text, and
  the lookup laws are proved for any spec.
- Lower-casing and case folding are ASCII only. Python's Unicode `lower()` is not modelled.
  `str.strip` uses Python's whitespace set, written out.
- Threads and queues are left out: the router worker thread, `Queue` timeouts, locks, the
  `None` sentinel, join timeouts and the gamepad polling loop (`_run_loop`, `_poll_once`).
  The router queue is a sequence, and `DispatchNext` is one worker iteration.
- Router.InputRouter.ShutdownWorker: the queue is emptied without dispatching; the source's
  worker, on its way out, dispatches the events still queued before it exits.
- Runtime.TrackerRuntimeController.HandleTriggeredSkills: the Qt signal that moves the
  payload to the main thread is a direct call. The notifications the refreshes deliver are
  not stated (the service's `delivered` log is not in the ensures), and `_on_router_error`
  (turning an error into a message signal) is left out.
- InputAdapters.GamepadAdapter.CleanupRuntime: an exception from a handle's or module's
  `quit` is swallowed by the source; the model has quits that do not fail. Exceptions from a
  handle's `quit` or `init` inside `_refresh_joysticks` are not modelled.
- The listener and pygame libraries are abstract. A listener is a record whose `start`,
  `stop` and `join` failures are fields. The gamepad environment says which step fails, and
  joystick handles are indices.
- Router adapters exist only as indices with start/stop failure flags; the router does not
  call the adapter classes.
- `_save_settings`, `_populate_skill_table`, the combo box and every widget are left out. The
  combo's current data is the editor's `selectedProfileId`.
- Models.Settings: skill items are values in the settings list, not objects shared with the
  running engine. `ensure_defaults` rewrites `profile_id` and `time_length` on the very
  `SkillItem` objects the engine and the editor hold; the model does not capture that sharing.
- ProfileEditor.ProfileEditor: the editor's skill list is a list of values; the in-place update
  of items the tracker also holds, through `ensure_defaults`, is not captured.
- ProfileEditor.ProfileEditor.RenameCurrentProfile: the source mutates the shared `Profile`
  object; the model replaces the profile value at its position in the list.
- `isinstance` filters over lists (`_reset_skill_sequence_state`, `set_skill_items`,
  `_on_router_triggered`, `_handle_triggered_skills`, `ensure_defaults`) are vacuous here
  because the values are typed. The malformed-row skips in `_handle_triggered_skills` are not
  modelled.
- Floats are exact reals. NaN and infinity are not modelled. `_as_int` and `_as_float` parse
  strings of an optional sign and digits (with an optional fraction for floats); exponents,
  underscores, `inf` and `nan` are not modelled.
- `process_input_event`, the keyboard/mouse/gamepad event helper functions and
  `_extract_raw_code` on library key objects are left out. A raw code is an integer or a
  string.
- InputEvents.NormalizeGamepadCode: the source's `button<digits>` branch after the three
  regexes is left out, because the `(gamepad)?button<digits>` regex before it already accepts
  every such token.
- ModelsLemmas.SettingsRoundTrip: stated for settings whose items are loadable (durations
  ≥ 0 and key codes trimmed, as every loaded item is); `LoadIsStable` covers all payloads.
- The gamepad matching example `GamePad Button 0` is not stated. Only space-free spellings
  are proved, because the general `button<n>` and `buttons<n>` lemmas cover the simplified
  token.
- Concurrency between the Qt thread and the router worker is not modelled: every operation
  runs to completion before the next.

## Findings

| source | as written | input that shows it | evidently intended | confidence | as-written member | corrected member |
|---|---|---|---|---|---|---|
| src/d2rso/input_events.py:49-58 | The shift aliases are `lshift`, `leftshift`, `shiftl`, `shiftleft`, `shiftlkey` (and the right-hand ones). There is no `lshiftkey` or `rshiftkey`, though `lcontrolkey`/`rcontrolkey` exist for the control keys. So the normaliser's own outputs `LShiftKey` and `RShiftKey` normalise to None. A skill configured with the catalog's Left Shift (`LShiftKey`) never matches an event in `_matches_event_code`. | `normalize_keyboard_code("LShiftKey")` gives None, while `normalize_keyboard_code("LShift")` gives `"LShiftKey"` | `lshiftkey` → `LShiftKey` and `rshiftkey` → `RShiftKey`, so every keyboard output is a fixed point | not executed | InputEventsLemmas.KeyboardRenormalizedAsWritten | InputEventsLemmas.KeyboardNormalizationIdempotent |
| src/d2rso/tracker_engine.py:12-20 | `_matches_event_code` normalises the configured code with the same table. The configured `LShiftKey` (or `RShiftKey`) normalises to None, so the function returns false for every event, including the `LShiftKey` event a Left Shift press produces. | an item with skill key `LShiftKey` and the event built from `LShift` | the item fires on a Left Shift press | not executed | TrackerEngineLemmas.ShiftEventUnmatchedAsWritten | TrackerEngineLemmas.EventMatchesItsCode |
