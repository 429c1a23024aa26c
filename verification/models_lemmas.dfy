/**
 * What `ensure_defaults`, `__post_init__`, `SkillItem.from_dict` and the dictionary
 * round trip of src/d2rso/models.py guarantee, stated over the value model of `Models`.
 */
module ModelsLemmas {
  import opened Wrappers
  import opened Text
  import opened ModelValues
  import opened Models

  // ---------------------------------------------------------------------------
  // ensure_defaults

  lemma RepairItemKeepsLoadable(c: SkillConfig, ids: set<int>, last: int)
    ensures RepairItem(c, ids, last).timeLength >= 0.0
    ensures last in ids ==> RepairItem(c, ids, last).profileId in ids
  {
  }

  /**
   * After `ensure_defaults` the profile list holds id 0, the selection and every item's
   * profile are existing ids, durations are non-negative, scales positive, and both
   * red-overlay fields hold the same non-negative value.
   */
  lemma EnsureDefaultsRepairs(d: SettingsData)
    ensures Repaired(EnsureDefaultsData(d))
  {
    var r := EnsureDefaultsData(d);
    var ids := ProfileIds(r.profiles);
    RepairedProfilesHaveDefault(d.profiles);
    assert r.lastSelectedProfileId in ids;
    forall c | c in r.skillItems
      ensures c.profileId in ids && c.timeLength >= 0.0
    {
      var k :| 0 <= k < |r.skillItems| && r.skillItems[k] == c;
      RepairItemKeepsLoadable(d.skillItems[k], ids, r.lastSelectedProfileId);
    }
  }

  /** Settings that already satisfy the invariants are left exactly as they are. */
  lemma RepairedIsFixed(d: SettingsData)
    requires Repaired(d)
    ensures EnsureDefaultsData(d) == d
  {
    var r := EnsureDefaultsData(d);
    assert r.profiles == d.profiles;
    var ids := ProfileIds(d.profiles);
    forall k | 0 <= k < |d.skillItems|
      ensures r.skillItems[k] == d.skillItems[k]
    {
      assert d.skillItems[k] in d.skillItems;
    }
  }

  /** `__post_init__` leaves settings that already satisfy the invariants as they are. */
  lemma PostInitOfRepaired(d: SettingsData)
    requires Repaired(d)
    ensures PostInitData(d) == d
  {
    assert d.(redOverlaySeconds := d.redOverlaySeconds) == d;
    RepairedIsFixed(d);
  }

  /** `ensure_defaults` is idempotent: a second call changes nothing. */
  lemma EnsureDefaultsIdempotent(d: SettingsData)
    ensures EnsureDefaultsData(EnsureDefaultsData(d)) == EnsureDefaultsData(d)
  {
    EnsureDefaultsRepairs(d);
    RepairedIsFixed(EnsureDefaultsData(d));
  }

  /**
   * `ensure_defaults` keeps usable data: the existing profiles stay in order behind at most
   * one prepended default profile (added only when id 0 is missing), a valid selection is
   * kept, each item keeps everything but an invalid profile id or a negative duration, and
   * the fields it does not repair are unchanged.
   */
  lemma EnsureDefaultsKeeps(d: SettingsData)
    ensures var r := EnsureDefaultsData(d);
      && |r.profiles| == |d.profiles| + (if DefaultProfileId in ProfileIds(d.profiles) then 0 else 1)
      && r.profiles[|r.profiles| - |d.profiles|..] == d.profiles
      && (|r.profiles| > |d.profiles| ==> r.profiles[0] == DefaultProfile)
      && (d.lastSelectedProfileId in ProfileIds(d.profiles) ==> r.lastSelectedProfileId == d.lastSelectedProfileId)
      && |r.skillItems| == |d.skillItems|
      && (forall k | 0 <= k < |d.skillItems| ::
            && r.skillItems[k].(profileId := 0, timeLength := 0.0) == d.skillItems[k].(profileId := 0, timeLength := 0.0)
            && (d.skillItems[k].profileId in ProfileIds(d.profiles) ==> r.skillItems[k].profileId == d.skillItems[k].profileId)
            && (d.skillItems[k].timeLength >= 0.0 ==> r.skillItems[k].timeLength == d.skillItems[k].timeLength))
      && r.(profiles := d.profiles, lastSelectedProfileId := d.lastSelectedProfileId, skillItems := d.skillItems,
            formScaleX := d.formScaleX, formScaleY := d.formScaleY,
            redOverlaySeconds := d.redOverlaySeconds, redTrackerOverlaySec := d.redTrackerOverlaySec) == d
  {
    var r := EnsureDefaultsData(d);
    if DefaultProfileId !in ProfileIds(d.profiles) {
      assert r.profiles[1..] == d.profiles;
    }
    forall k | 0 <= k < |d.skillItems| && d.skillItems[k].profileId in ProfileIds(d.profiles)
      ensures r.skillItems[k].profileId == d.skillItems[k].profileId
    {
      ProfileIdsSpec(d.profiles);
      ProfileIdsSpec(r.profiles);
      if DefaultProfileId !in ProfileIds(d.profiles) {
        var j :| 0 <= j < |d.profiles| && d.profiles[j].id == d.skillItems[k].profileId;
        assert r.profiles[j + 1] == d.profiles[j];
      }
    }
    if d.lastSelectedProfileId in ProfileIds(d.profiles) {
      ProfileIdsSpec(d.profiles);
      ProfileIdsSpec(r.profiles);
      if DefaultProfileId !in ProfileIds(d.profiles) {
        var j :| 0 <= j < |d.profiles| && d.profiles[j].id == d.lastSelectedProfileId;
        assert r.profiles[j + 1] == d.profiles[j];
      }
    }
  }

  /**
   * `__post_init__` leaves repaired settings; a legacy `red_tracker_overlay_sec` stands in
   * for an unset `red_overlay_seconds`.
   */
  lemma PostInitRepairs(d: SettingsData)
    ensures Repaired(PostInitData(d))
    ensures PostInitData(d).redOverlaySeconds ==
      if d.redOverlaySeconds <= 0 && d.redTrackerOverlaySec > 0 then d.redTrackerOverlaySec
      else EffectiveRedOverlay(d.redOverlaySeconds)
  {
    var red := if d.redOverlaySeconds <= 0 && d.redTrackerOverlaySec > 0 then d.redTrackerOverlaySec else d.redOverlaySeconds;
    EnsureDefaultsRepairs(d.(redOverlaySeconds := red));
  }

  /** `Settings()` with no arguments is already repaired: one default profile, selected. */
  lemma DefaultSettingsRepaired()
    ensures PostInitData(DefaultSettingsData) == DefaultSettingsData
    ensures ProfileIds(DefaultSettingsData.profiles) == {DefaultProfileId}
  {
    assert ProfileIds(DefaultSettingsData.profiles) == {DefaultProfileId};
    assert Repaired(DefaultSettingsData);
    RepairedIsFixed(DefaultSettingsData);
  }

  // ---------------------------------------------------------------------------
  // SkillItem.from_dict

  /** A key field as `from_dict` can leave it: absent, or a trimmed non-empty code. */
  predicate KeyTrimmed(k: Option<string>) {
    k.None? || IsTrimmedKey(k.value)
  }

  /** A skill configuration `from_dict` can produce. */
  predicate Loadable(c: SkillConfig) {
    c.timeLength >= 0.0 && KeyTrimmed(c.selectKey) && KeyTrimmed(c.skillKey)
  }

  lemma GetFirst(data: map<string, Value>, keys: seq<string>, default: Value)
    requires |keys| > 0 && keys[0] in data
    ensures HasKey(data, keys) && GetValue(data, keys, default) == data[keys[0]]
  {
    assert keys[0] in keys;
  }

  lemma DefaultSkillKeyTrimmed()
    ensures IsTrimmedKey(DefaultSkillKey)
  {
    StripOfTrimmed(DefaultSkillKey);
  }

  /**
   * `SkillItem.from_dict` on the keys: an absent skill key gives `MOUSE2` while an explicit
   * null or a blank one gives none, and an absent select key gives none.
   */
  lemma SkillFromDictKeys(data: map<string, Value>)
    ensures !HasKey(data, ["skill_key", "SkillKey"]) ==> SkillFromDict(data).skillKey == Some(DefaultSkillKey)
    ensures "skill_key" in data && data["skill_key"] == VNone ==> SkillFromDict(data).skillKey == None
    ensures "skill_key" in data && data["skill_key"].VStr? && Strip(data["skill_key"].s) == [] ==> SkillFromDict(data).skillKey == None
    ensures !HasKey(data, ["select_key", "SelectKey"]) ==> SkillFromDict(data).selectKey == None
  {
    if "skill_key" in data {
      GetFirst(data, ["skill_key", "SkillKey"], VNone);
    }
  }

  /**
   * `SkillItem.from_dict` leaves a non-negative duration, replacing a negative one by the
   * default, and only trimmed non-empty key codes.
   */
  lemma SkillFromDictLoadable(data: map<string, Value>)
    ensures "time_length" in data && data["time_length"].VFloat? && data["time_length"].x < 0.0 ==> SkillFromDict(data).timeLength == DefaultSkillDuration
    ensures Loadable(SkillFromDict(data))
  {
    DefaultSkillKeyTrimmed();
    if "time_length" in data {
      GetFirst(data, ["time_length", "TimeLength"], VFloat(DefaultSkillDuration));
    }
    AsKeyCodeTrimmed(GetValue(data, ["select_key", "SelectKey"], VNone), None);
    AsKeyCodeTrimmed(GetValue(data, ["skill_key", "SkillKey"], VNone), None);
  }

  /** An empty payload gives the dataclass defaults. */
  lemma SkillFromEmptyDict()
    ensures SkillFromDict(map[]) == DefaultSkillConfig
  {
    assert !HasKey(map[], ["select_key", "SelectKey"]);
    assert !HasKey(map[], ["skill_key", "SkillKey"]);
  }

  // ---------------------------------------------------------------------------
  // Round trips through the dictionary payload

  lemma ProfileRoundTrip(p: Profile)
    ensures ProfileFromDict(ProfileToDict(p)) == p
  {
    GetFirst(ProfileToDict(p), ["id", "Id"], VInt(DefaultProfileId));
    GetFirst(ProfileToDict(p), ["name", "Name"], VStr(DefaultProfileName));
  }

  /** Reading back the written profile list gives the same profiles, in order. */
  lemma {:induction false} ProfilesRoundTrip(profiles: seq<Profile>)
    ensures ProfilesFromList(ProfilesToList(profiles)) == profiles
  {
    if profiles != [] {
      assert ProfilesToList(profiles)[1..] == ProfilesToList(profiles[1..]);
      ProfileRoundTrip(profiles[0]);
      ProfilesRoundTrip(profiles[1..]);
    }
  }

  lemma KeyRoundTrip(k: Option<string>)
    requires KeyTrimmed(k)
    ensures AsKeyCode(KeyValue(k), None) == k
  {
    if k.Some? {
      AsKeyCodeTrimmed(VStr(k.value), None);
    }
  }

  lemma SkillDictLookups(c: SkillConfig)
    ensures var data := SkillToDict(c);
      && GetValue(data, ["id", "Id"], VInt(0)) == VInt(c.id)
      && GetValue(data, ["profile_id", "ProfileId"], VInt(DefaultProfileId)) == VInt(c.profileId)
      && GetValue(data, ["icon_file_name", "IconFileName"], VStr("")) == VStr(c.iconFileName)
      && GetValue(data, ["time_length", "TimeLength"], VFloat(DefaultSkillDuration)) == VFloat(c.timeLength)
      && GetValue(data, ["is_enabled", "IsEnabled"], VBool(true)) == VBool(c.isEnabled)
      && HasKey(data, ["select_key", "SelectKey"]) && GetValue(data, ["select_key", "SelectKey"], VNone) == KeyValue(c.selectKey)
      && HasKey(data, ["skill_key", "SkillKey"]) && GetValue(data, ["skill_key", "SkillKey"], VNone) == KeyValue(c.skillKey)
  {
    var data := SkillToDict(c);
    GetFirst(data, ["id", "Id"], VInt(0));
    GetFirst(data, ["profile_id", "ProfileId"], VInt(DefaultProfileId));
    GetFirst(data, ["icon_file_name", "IconFileName"], VStr(""));
    GetFirst(data, ["time_length", "TimeLength"], VFloat(DefaultSkillDuration));
    GetFirst(data, ["is_enabled", "IsEnabled"], VBool(true));
    GetFirst(data, ["select_key", "SelectKey"], VNone);
    GetFirst(data, ["skill_key", "SkillKey"], VNone);
  }

  /** A skill item `from_dict` could have produced is read back from its `to_dict` unchanged. */
  lemma SkillRoundTrip(c: SkillConfig)
    requires Loadable(c)
    ensures SkillFromDict(SkillToDict(c)) == c
  {
    SkillDictLookups(c);
    KeyRoundTrip(c.selectKey);
    KeyRoundTrip(c.skillKey);
  }

  lemma {:induction false} SkillsRoundTrip(items: seq<SkillConfig>)
    requires forall c | c in items :: Loadable(c)
    ensures SkillsFromList(SkillsToList(items)) == items
  {
    if items != [] {
      var payload := SkillsToList(items);
      assert payload[0] == VDict(SkillToDict(items[0]));
      assert payload[1..] == SkillsToList(items[1..]);
      assert items[0] in items;
      var head := SkillFromDict(payload[0].fields);
      SkillRoundTrip(items[0]);
      assert head == items[0];
      SkillsRoundTrip(items[1..]);
    }
  }

  /** Settings whose every field `from_dict` can produce and `__post_init__` keeps. */
  predicate SettingsLoadable(d: SettingsData) {
    Repaired(d) && forall c | c in d.skillItems :: Loadable(c)
  }

  /** The lists `Settings.to_dict` writes are found under the first spelling `from_dict` looks for. */
  lemma SettingsListLookups(d: SettingsData)
    ensures GetValue(SettingsToDict(d), ["skill_items", "SkillItems"], VList([])) == VList(SkillsToList(d.skillItems))
    ensures GetValue(SettingsToDict(d), ["profiles", "Profiles"], VList([])) == VList(ProfilesToList(d.profiles))
    ensures GetValue(SettingsToDict(d), ["last_selected_profile_id", "LastSelectedProfileId"], VInt(DefaultProfileId))
      == VInt(d.lastSelectedProfileId)
  {
    var data := SettingsToDict(d);
    GetFirst(data, ["skill_items", "SkillItems"], VList([]));
    GetFirst(data, ["profiles", "Profiles"], VList([]));
    GetFirst(data, ["last_selected_profile_id", "LastSelectedProfileId"], VInt(DefaultProfileId));
  }

  /** So are the tracker position and the form scales, and the effective red overlay. */
  lemma SettingsLayoutLookups(d: SettingsData)
    ensures GetValue(SettingsToDict(d), ["tracker_x", "TrackerX"], VInt(0)) == VInt(d.trackerX)
    ensures GetValue(SettingsToDict(d), ["tracker_y", "TrackerY"], VInt(0)) == VInt(d.trackerY)
    ensures GetValue(SettingsToDict(d), ["form_scale_x", "FormScaleX"], VFloat(DefaultFormScale)) == VFloat(d.formScaleX)
    ensures GetValue(SettingsToDict(d), ["form_scale_y", "FormScaleY"], VFloat(DefaultFormScale)) == VFloat(d.formScaleY)
    ensures GetValue(SettingsToDict(d), ["red_overlay_seconds", "RedOverlaySeconds", "red_tracker_overlay_sec", "RedTrackerOverlaySec"], VInt(0))
      == VInt(EffectiveRedOverlay(d.redOverlaySeconds))
  {
    var data := SettingsToDict(d);
    GetFirst(data, ["tracker_x", "TrackerX"], VInt(0));
    GetFirst(data, ["tracker_y", "TrackerY"], VInt(0));
    GetFirst(data, ["form_scale_x", "FormScaleX"], VFloat(DefaultFormScale));
    GetFirst(data, ["form_scale_y", "FormScaleY"], VFloat(DefaultFormScale));
    GetFirst(data, ["red_overlay_seconds", "RedOverlaySeconds", "red_tracker_overlay_sec", "RedTrackerOverlaySec"], VInt(0));
  }

  /** So are the five switches. */
  lemma SettingsFlagLookups(d: SettingsData)
    ensures GetValue(SettingsToDict(d), ["is_tracker_insert_to_left", "IsTrackerInsertToLeft"], VBool(false)) == VBool(d.isTrackerInsertToLeft)
    ensures GetValue(SettingsToDict(d), ["is_tracker_vertical", "IsTrackerVertical"], VBool(false)) == VBool(d.isTrackerVertical)
    ensures GetValue(SettingsToDict(d), ["show_digits_in_tracker", "ShowDigitsInTracker"], VBool(false)) == VBool(d.showDigitsInTracker)
    ensures GetValue(SettingsToDict(d), ["start_tracker_on_app_run", "StartTrackerOnAppRun"], VBool(false)) == VBool(d.startTrackerOnAppRun)
    ensures GetValue(SettingsToDict(d), ["minimize_to_tray", "MinimizeToTray"], VBool(false)) == VBool(d.minimizeToTray)
  {
    var data := SettingsToDict(d);
    GetFirst(data, ["is_tracker_insert_to_left", "IsTrackerInsertToLeft"], VBool(false));
    GetFirst(data, ["is_tracker_vertical", "IsTrackerVertical"], VBool(false));
    GetFirst(data, ["show_digits_in_tracker", "ShowDigitsInTracker"], VBool(false));
    GetFirst(data, ["start_tracker_on_app_run", "StartTrackerOnAppRun"], VBool(false));
    GetFirst(data, ["minimize_to_tray", "MinimizeToTray"], VBool(false));
  }

  /**
   * Reading back what `to_dict` wrote gives the same fields, except that both red-overlay
   * fields come back as the effective value.
   */
  lemma SettingsFieldsRoundTrip(d: SettingsData)
    requires forall c | c in d.skillItems :: Loadable(c)
    ensures var red := EffectiveRedOverlay(d.redOverlaySeconds);
      SettingsFieldsFromDict(SettingsToDict(d)) == d.(redOverlaySeconds := red, redTrackerOverlaySec := red)
  {
    SettingsListLookups(d);
    SettingsLayoutLookups(d);
    SettingsFlagLookups(d);
    SkillsRoundTrip(d.skillItems);
    ProfilesRoundTrip(d.profiles);
  }

  /** Settings `__post_init__` has already repaired survive `to_dict` then `from_dict` unchanged. */
  lemma SettingsRoundTrip(d: SettingsData)
    requires SettingsLoadable(d)
    ensures SettingsFromDict(SettingsToDict(d)) == d
  {
    SettingsFieldsRoundTrip(d);
    PostInitOfRepaired(d);
  }

  /** The loop of `ensure_defaults` keeps every item loadable. */
  lemma RepairItemsKeepLoadable(items: seq<SkillConfig>, ids: set<int>, last: int)
    requires forall c | c in items :: KeyTrimmed(c.selectKey) && KeyTrimmed(c.skillKey)
    ensures forall c | c in RepairItems(items, ids, last) :: Loadable(c)
  {
    var r := RepairItems(items, ids, last);
    forall c | c in r
      ensures Loadable(c)
    {
      var k :| 0 <= k < |r| && r[k] == c;
      assert items[k] in items;
      RepairItemKeepsLoadable(items[k], ids, last);
    }
  }

  /** Every skill item read from a payload list is loadable. */
  lemma {:induction false} SkillsFromListLoadable(payload: seq<Value>)
    ensures forall c | c in SkillsFromList(payload) :: Loadable(c)
  {
    if payload != [] {
      SkillsFromListLoadable(payload[1..]);
      if payload[0].VDict? {
        SkillFromDictLoadable(payload[0].fields);
      }
    }
  }

  /** Whatever payload `from_dict` reads, the settings it builds can be saved and reloaded unchanged. */
  lemma LoadIsStable(data: map<string, Value>)
    ensures SettingsFromDict(SettingsToDict(SettingsFromDict(data))) == SettingsFromDict(data)
  {
    var fields := SettingsFieldsFromDict(data);
    var d := SettingsFromDict(data);
    PostInitRepairs(fields);
    var skillsPayload := GetValue(data, ["skill_items", "SkillItems"], VList([]));
    if skillsPayload.VList? {
      SkillsFromListLoadable(skillsPayload.items);
    }
    var red := if fields.redOverlaySeconds <= 0 && fields.redTrackerOverlaySec > 0 then fields.redTrackerOverlaySec else fields.redOverlaySeconds;
    var ids := ProfileIds(RepairProfiles(fields.profiles));
    RepairItemsKeepLoadable(fields.skillItems, ids, RepairSelection(fields.lastSelectedProfileId, ids));
    SettingsRoundTrip(d);
  }
}
