/**
 * The domain records of src/d2rso/models.py: profiles, skill items with their select-key
 * hold state, and the settings that hold both, with the repair `ensure_defaults` performs
 * and the conversion to and from the dictionary payload.
 */
module Models {
  import opened Wrappers
  import opened Text
  import opened ModelValues

  const DefaultProfileId: int := 0
  const DefaultProfileName: string := "Default"
  const DefaultSkillKey: string := "MOUSE2"
  const DefaultSkillDuration: real := 5.0
  const DefaultFormScale: real := 1.0

  // ---------------------------------------------------------------------------
  // Profile

  datatype Profile = Profile(id: int, name: string)

  const DefaultProfile: Profile := Profile(DefaultProfileId, DefaultProfileName)

  /** `Profile.to_dict` */
  function ProfileToDict(p: Profile): map<string, Value> {
    map["id" := VInt(p.id), "name" := VStr(p.name)]
  }

  /** `Profile.from_dict` */
  function ProfileFromDict(data: map<string, Value>): Profile {
    Profile(
      AsInt(GetValue(data, ["id", "Id"], VInt(DefaultProfileId)), DefaultProfileId),
      AsStr(GetValue(data, ["name", "Name"], VStr(DefaultProfileName)), DefaultProfileName))
  }

  // ---------------------------------------------------------------------------
  // SkillItem

  /** The persisted fields of a skill item (everything but the select-key hold state). */
  datatype SkillConfig = SkillConfig(
    id: int,
    profileId: int,
    iconFileName: string,
    timeLength: real,
    isEnabled: bool,
    selectKey: Option<string>,
    skillKey: Option<string>)

  /** A new skill item's configuration as the dataclass defaults give it. */
  const DefaultSkillConfig: SkillConfig :=
    SkillConfig(0, DefaultProfileId, "", DefaultSkillDuration, true, None, Some(DefaultSkillKey))

  function KeyValue(key: Option<string>): Value {
    match key
    case None => VNone
    case Some(k) => VStr(k)
  }

  /** `SkillItem.to_dict` */
  function SkillToDict(c: SkillConfig): map<string, Value> {
    map[
      "id" := VInt(c.id),
      "profile_id" := VInt(c.profileId),
      "icon_file_name" := VStr(c.iconFileName),
      "time_length" := VFloat(c.timeLength),
      "is_enabled" := VBool(c.isEnabled),
      "select_key" := KeyValue(c.selectKey),
      "skill_key" := KeyValue(c.skillKey)
    ]
  }

  /** The `select_key` of `SkillItem.from_dict`: none unless a spelling of the key is present. */
  function SelectKeyFromDict(data: map<string, Value>): Option<string> {
    if HasKey(data, ["select_key", "SelectKey"])
    then AsKeyCode(GetValue(data, ["select_key", "SelectKey"], VNone), None)
    else None
  }

  /** The `skill_key` of `SkillItem.from_dict`: `MOUSE2` unless a spelling of the key is present. */
  function SkillKeyFromDict(data: map<string, Value>): Option<string> {
    if HasKey(data, ["skill_key", "SkillKey"])
    then AsKeyCode(GetValue(data, ["skill_key", "SkillKey"], VNone), None)
    else Some(DefaultSkillKey)
  }

  /** The `time_length` of `SkillItem.from_dict`, with a negative value replaced by the default. */
  function DurationFromDict(data: map<string, Value>): real {
    var t := AsFloat(GetValue(data, ["time_length", "TimeLength"], VFloat(DefaultSkillDuration)), DefaultSkillDuration);
    if t < 0.0 then DefaultSkillDuration else t
  }

  /** `SkillItem.from_dict` */
  function SkillFromDict(data: map<string, Value>): SkillConfig {
    SkillConfig(
      AsInt(GetValue(data, ["id", "Id"], VInt(0)), 0),
      AsInt(GetValue(data, ["profile_id", "ProfileId"], VInt(DefaultProfileId)), DefaultProfileId),
      AsStr(GetValue(data, ["icon_file_name", "IconFileName"], VStr("")), ""),
      DurationFromDict(data),
      AsBool(GetValue(data, ["is_enabled", "IsEnabled"], VBool(true)), true),
      SelectKeyFromDict(data),
      SkillKeyFromDict(data))
  }

  /** A skill item: its configuration fields and whether its select key is currently held. */
  class SkillItem {
    var id: int
    var profileId: int
    var iconFileName: string
    var timeLength: real
    var isEnabled: bool
    var selectKey: Option<string>
    var skillKey: Option<string>
    var selectKeyHeld: bool

    constructor (c: SkillConfig)
      ensures Config() == c && !selectKeyHeld
    {
      id := c.id;
      profileId := c.profileId;
      iconFileName := c.iconFileName;
      timeLength := c.timeLength;
      isEnabled := c.isEnabled;
      selectKey := c.selectKey;
      skillKey := c.skillKey;
      selectKeyHeld := false;
    }

    function Config(): SkillConfig
      reads this
    {
      SkillConfig(id, profileId, iconFileName, timeLength, isEnabled, selectKey, skillKey)
    }

    /** `skill_key_pressed`: a press of the skill key fires unless a select key is configured and not held. */
    predicate SkillKeyPressed()
      reads this
    {
      selectKey.None? || selectKeyHeld
    }

    /** `select_key_pressed`: arms the item, but only when it has a select key. */
    method SelectKeyPressed()
      modifies this`selectKeyHeld
      ensures selectKeyHeld == (old(selectKeyHeld) || selectKey.Some?)
      ensures SkillKeyPressed()
    {
      if selectKey.Some? {
        selectKeyHeld := true;
      }
    }

    /** `select_key_released`: disarms the item. */
    method SelectKeyReleased()
      modifies this`selectKeyHeld
      ensures !selectKeyHeld
      ensures SkillKeyPressed() == selectKey.None?
    {
      selectKeyHeld := false;
    }

    /** `reset_keys`: clears the hold state. */
    method ResetKeys()
      modifies this`selectKeyHeld
      ensures !selectKeyHeld
      ensures SkillKeyPressed() == selectKey.None?
    {
      selectKeyHeld := false;
    }
  }

  // ---------------------------------------------------------------------------
  // Settings as a value

  /** The fields of `Settings`, with the skill items as their configurations. */
  datatype SettingsData = SettingsData(
    lastSelectedProfileId: int,
    skillItems: seq<SkillConfig>,
    profiles: seq<Profile>,
    trackerX: int,
    trackerY: int,
    formScaleX: real,
    formScaleY: real,
    isTrackerInsertToLeft: bool,
    isTrackerVertical: bool,
    showDigitsInTracker: bool,
    redOverlaySeconds: int,
    redTrackerOverlaySec: int,
    startTrackerOnAppRun: bool,
    minimizeToTray: bool)

  /** The ids of the profiles. */
  function ProfileIds(profiles: seq<Profile>): set<int> {
    if profiles == [] then {} else {profiles[0].id} + ProfileIds(profiles[1..])
  }

  lemma {:induction false} ProfileIdsSpec(profiles: seq<Profile>)
    ensures forall id :: id in ProfileIds(profiles) <==> exists k | 0 <= k < |profiles| :: profiles[k].id == id
  {
    if profiles != [] {
      ProfileIdsSpec(profiles[1..]);
      forall id | id in ProfileIds(profiles)
        ensures exists k | 0 <= k < |profiles| :: profiles[k].id == id
      {
        if id != profiles[0].id {
          assert id in ProfileIds(profiles[1..]);
          var k :| 0 <= k < |profiles[1..]| && profiles[1..][k].id == id;
          assert profiles[k + 1].id == id;
        }
      }
      forall id | exists k | 0 <= k < |profiles| :: profiles[k].id == id
        ensures id in ProfileIds(profiles)
      {
        var k :| 0 <= k < |profiles| && profiles[k].id == id;
        if k > 0 {
          assert profiles[1..][k - 1].id == id;
        }
      }
    }
  }

  /** The profile list `ensure_defaults` leaves: the default profile is prepended when id 0 is missing. */
  function RepairProfiles(profiles: seq<Profile>): seq<Profile> {
    if DefaultProfileId in ProfileIds(profiles) then profiles else [DefaultProfile] + profiles
  }

  /** The loop body of `ensure_defaults` on one item. */
  function RepairItem(c: SkillConfig, ids: set<int>, fallback: int): SkillConfig {
    c.(profileId := if c.profileId in ids then c.profileId else fallback,
       timeLength := if c.timeLength < 0.0 then DefaultSkillDuration else c.timeLength)
  }

  function RepairItems(items: seq<SkillConfig>, ids: set<int>, fallback: int): (r: seq<SkillConfig>)
    ensures |r| == |items| && forall k | 0 <= k < |items| :: r[k] == RepairItem(items[k], ids, fallback)
  {
    seq(|items|, k requires 0 <= k < |items| => RepairItem(items[k], ids, fallback))
  }

  /** `red_overlay_seconds_effective` */
  function EffectiveRedOverlay(seconds: int): int {
    if seconds < 0 then 0 else seconds
  }

  /** The selected profile `ensure_defaults` leaves. */
  function RepairSelection(last: int, ids: set<int>): int {
    if last in ids then last else DefaultProfileId
  }

  /** `Settings.ensure_defaults` on the settings' fields. */
  function EnsureDefaultsData(d: SettingsData): SettingsData {
    var profiles := RepairProfiles(d.profiles);
    var ids := ProfileIds(profiles);
    var last := RepairSelection(d.lastSelectedProfileId, ids);
    var red := EffectiveRedOverlay(d.redOverlaySeconds);
    d.(profiles := profiles,
       lastSelectedProfileId := last,
       skillItems := RepairItems(d.skillItems, ids, last),
       formScaleX := if d.formScaleX <= 0.0 then DefaultFormScale else d.formScaleX,
       formScaleY := if d.formScaleY <= 0.0 then DefaultFormScale else d.formScaleY,
       redOverlaySeconds := red,
       redTrackerOverlaySec := red)
  }

  /**
   * `Settings.__post_init__`: the legacy `red_tracker_overlay_sec` fills in an unset
   * `red_overlay_seconds`, then `ensure_defaults` runs.
   */
  function PostInitData(d: SettingsData): SettingsData {
    var red := if d.redOverlaySeconds <= 0 && d.redTrackerOverlaySec > 0 then d.redTrackerOverlaySec else d.redOverlaySeconds;
    EnsureDefaultsData(d.(redOverlaySeconds := red))
  }

  /** The repaired profile list always holds the default profile's id. */
  lemma RepairedProfilesHaveDefault(profiles: seq<Profile>)
    ensures DefaultProfileId in ProfileIds(RepairProfiles(profiles))
  {
    if DefaultProfileId !in ProfileIds(profiles) {
      assert DefaultProfile in RepairProfiles(profiles);
    }
  }

  /** `ensure_defaults` is pinned down field by field. */
  lemma EnsureDefaultsFieldwise(d: SettingsData, e: SettingsData)
    requires e.profiles == RepairProfiles(d.profiles)
    requires e.lastSelectedProfileId == RepairSelection(d.lastSelectedProfileId, ProfileIds(e.profiles))
    requires e.skillItems == RepairItems(d.skillItems, ProfileIds(e.profiles), e.lastSelectedProfileId)
    requires e.formScaleX == if d.formScaleX <= 0.0 then DefaultFormScale else d.formScaleX
    requires e.formScaleY == if d.formScaleY <= 0.0 then DefaultFormScale else d.formScaleY
    requires e.redOverlaySeconds == e.redTrackerOverlaySec == EffectiveRedOverlay(d.redOverlaySeconds)
    requires e.trackerX == d.trackerX && e.trackerY == d.trackerY
    requires e.isTrackerInsertToLeft == d.isTrackerInsertToLeft && e.isTrackerVertical == d.isTrackerVertical
    requires e.showDigitsInTracker == d.showDigitsInTracker
    requires e.startTrackerOnAppRun == d.startTrackerOnAppRun && e.minimizeToTray == d.minimizeToTray
    ensures e == EnsureDefaultsData(d)
  {
  }

  /** The invariants `ensure_defaults` establishes. */
  predicate Repaired(d: SettingsData) {
    var ids := ProfileIds(d.profiles);
    && DefaultProfileId in ids
    && d.lastSelectedProfileId in ids
    && (forall c | c in d.skillItems :: c.profileId in ids && c.timeLength >= 0.0)
    && d.formScaleX > 0.0 && d.formScaleY > 0.0
    && d.redOverlaySeconds == d.redTrackerOverlaySec >= 0
  }

  // ---------------------------------------------------------------------------
  // The dictionary payload

  function ProfilesToList(profiles: seq<Profile>): (r: seq<Value>)
    ensures |r| == |profiles| && forall k | 0 <= k < |profiles| :: r[k] == VDict(ProfileToDict(profiles[k]))
  {
    seq(|profiles|, k requires 0 <= k < |profiles| => VDict(ProfileToDict(profiles[k])))
  }

  function SkillsToList(items: seq<SkillConfig>): (r: seq<Value>)
    ensures |r| == |items| && forall k | 0 <= k < |items| :: r[k] == VDict(SkillToDict(items[k]))
  {
    seq(|items|, k requires 0 <= k < |items| => VDict(SkillToDict(items[k])))
  }

  /** The loop of `Settings.from_dict` over the profile payload: mappings become profiles, the rest is skipped. */
  function ProfilesFromList(payload: seq<Value>): seq<Profile> {
    if payload == [] then []
    else (if payload[0].VDict? then [ProfileFromDict(payload[0].fields)] else []) + ProfilesFromList(payload[1..])
  }

  /** The loop of `Settings.from_dict` over the skill payload. */
  function SkillsFromList(payload: seq<Value>): seq<SkillConfig> {
    if payload == [] then []
    else (if payload[0].VDict? then [SkillFromDict(payload[0].fields)] else []) + SkillsFromList(payload[1..])
  }

  /** `Settings.to_dict`; both red-overlay keys carry the effective value. */
  function SettingsToDict(d: SettingsData): map<string, Value> {
    var red := EffectiveRedOverlay(d.redOverlaySeconds);
    map[
      "last_selected_profile_id" := VInt(d.lastSelectedProfileId),
      "skill_items" := VList(SkillsToList(d.skillItems)),
      "profiles" := VList(ProfilesToList(d.profiles)),
      "tracker_x" := VInt(d.trackerX),
      "tracker_y" := VInt(d.trackerY),
      "form_scale_x" := VFloat(d.formScaleX),
      "form_scale_y" := VFloat(d.formScaleY),
      "is_tracker_insert_to_left" := VBool(d.isTrackerInsertToLeft),
      "is_tracker_vertical" := VBool(d.isTrackerVertical),
      "show_digits_in_tracker" := VBool(d.showDigitsInTracker),
      "red_overlay_seconds" := VInt(red),
      "red_tracker_overlay_sec" := VInt(red),
      "start_tracker_on_app_run" := VBool(d.startTrackerOnAppRun),
      "minimize_to_tray" := VBool(d.minimizeToTray)
    ]
  }

  /** The fields `Settings.from_dict` reads, before `__post_init__` runs. */
  function SettingsFieldsFromDict(data: map<string, Value>): SettingsData {
    var profilesPayload := GetValue(data, ["profiles", "Profiles"], VList([]));
    var skillsPayload := GetValue(data, ["skill_items", "SkillItems"], VList([]));
    var red := AsInt(GetValue(data, ["red_overlay_seconds", "RedOverlaySeconds", "red_tracker_overlay_sec", "RedTrackerOverlaySec"], VInt(0)), 0);
    SettingsData(
      AsInt(GetValue(data, ["last_selected_profile_id", "LastSelectedProfileId"], VInt(DefaultProfileId)), DefaultProfileId),
      if skillsPayload.VList? then SkillsFromList(skillsPayload.items) else [],
      if profilesPayload.VList? then ProfilesFromList(profilesPayload.items) else [],
      AsInt(GetValue(data, ["tracker_x", "TrackerX"], VInt(0)), 0),
      AsInt(GetValue(data, ["tracker_y", "TrackerY"], VInt(0)), 0),
      AsFloat(GetValue(data, ["form_scale_x", "FormScaleX"], VFloat(DefaultFormScale)), DefaultFormScale),
      AsFloat(GetValue(data, ["form_scale_y", "FormScaleY"], VFloat(DefaultFormScale)), DefaultFormScale),
      AsBool(GetValue(data, ["is_tracker_insert_to_left", "IsTrackerInsertToLeft"], VBool(false)), false),
      AsBool(GetValue(data, ["is_tracker_vertical", "IsTrackerVertical"], VBool(false)), false),
      AsBool(GetValue(data, ["show_digits_in_tracker", "ShowDigitsInTracker"], VBool(false)), false),
      red,
      red,
      AsBool(GetValue(data, ["start_tracker_on_app_run", "StartTrackerOnAppRun"], VBool(false)), false),
      AsBool(GetValue(data, ["minimize_to_tray", "MinimizeToTray"], VBool(false)), false))
  }

  /** `Settings.from_dict`: the fields read from the payload, then `__post_init__`. */
  function SettingsFromDict(data: map<string, Value>): SettingsData {
    PostInitData(SettingsFieldsFromDict(data))
  }

  /** The settings a bare `Settings()` starts from, before `__post_init__`. */
  const DefaultSettingsData: SettingsData :=
    SettingsData(DefaultProfileId, [], [DefaultProfile], 0, 0, DefaultFormScale, DefaultFormScale,
                 false, false, false, 0, 0, false, false)

  // ---------------------------------------------------------------------------
  // Settings as an object

  /** The loop of `ensure_defaults` over the skill items, patching each in turn. */
  method RepairSkillItems(items: seq<SkillConfig>, ids: set<int>, last: int) returns (r: seq<SkillConfig>)
    ensures r == RepairItems(items, ids, last)
  {
    r := items;
    for k := 0 to |r|
      invariant |r| == |items|
      invariant forall j | 0 <= j < k :: r[j] == RepairItem(items[j], ids, last)
      invariant forall j | k <= j < |r| :: r[j] == items[j]
    {
      var item := r[k];
      if item.profileId !in ids {
        item := item.(profileId := last);
      }
      if item.timeLength < 0.0 {
        item := item.(timeLength := DefaultSkillDuration);
      }
      r := r[k := item];
    }
  }

  /**
   * `Settings`. The skill items are held as their configurations: the hold state of an item
   * belongs to the tracker engine's `SkillItem` objects.
   */
  class Settings {
    var lastSelectedProfileId: int
    var skillItems: seq<SkillConfig>
    var profiles: seq<Profile>
    var trackerX: int
    var trackerY: int
    var formScaleX: real
    var formScaleY: real
    var isTrackerInsertToLeft: bool
    var isTrackerVertical: bool
    var showDigitsInTracker: bool
    var redOverlaySeconds: int
    var redTrackerOverlaySec: int
    var startTrackerOnAppRun: bool
    var minimizeToTray: bool

    /** The settings' fields as a value. */
    function Data(): SettingsData
      reads this
    {
      SettingsData(lastSelectedProfileId, skillItems, profiles, trackerX, trackerY,
                   formScaleX, formScaleY, isTrackerInsertToLeft, isTrackerVertical, showDigitsInTracker,
                   redOverlaySeconds, redTrackerOverlaySec, startTrackerOnAppRun, minimizeToTray)
    }

    /** `Settings(...)`: the given fields, then `__post_init__`. */
    constructor (d: SettingsData)
      ensures Data() == PostInitData(d)
    {
      lastSelectedProfileId := d.lastSelectedProfileId;
      skillItems := d.skillItems;
      profiles := d.profiles;
      trackerX := d.trackerX;
      trackerY := d.trackerY;
      formScaleX := d.formScaleX;
      formScaleY := d.formScaleY;
      isTrackerInsertToLeft := d.isTrackerInsertToLeft;
      isTrackerVertical := d.isTrackerVertical;
      showDigitsInTracker := d.showDigitsInTracker;
      redOverlaySeconds := d.redOverlaySeconds;
      redTrackerOverlaySec := d.redTrackerOverlaySec;
      startTrackerOnAppRun := d.startTrackerOnAppRun;
      minimizeToTray := d.minimizeToTray;
      new;
      if redOverlaySeconds <= 0 && redTrackerOverlaySec > 0 {
        redOverlaySeconds := redTrackerOverlaySec;
      }
      EnsureDefaults();
    }

    /** The first steps of `ensure_defaults`: the profile list, then the selection. */
    method RepairProfilesAndSelection()
      modifies this`profiles, this`lastSelectedProfileId
      ensures profiles == RepairProfiles(old(profiles))
      ensures lastSelectedProfileId == RepairSelection(old(lastSelectedProfileId), ProfileIds(profiles))
    {
      profiles := RepairProfiles(profiles);
      if lastSelectedProfileId !in ProfileIds(profiles) {
        lastSelectedProfileId := DefaultProfileId;
      }
    }

    /** The last steps of `ensure_defaults`: the form scales and the red-overlay fields. */
    method RepairDisplay()
      modifies this`formScaleX, this`formScaleY, this`redOverlaySeconds, this`redTrackerOverlaySec
      ensures formScaleX == if old(formScaleX) <= 0.0 then DefaultFormScale else old(formScaleX)
      ensures formScaleY == if old(formScaleY) <= 0.0 then DefaultFormScale else old(formScaleY)
      ensures redOverlaySeconds == redTrackerOverlaySec == EffectiveRedOverlay(old(redOverlaySeconds))
    {
      if formScaleX <= 0.0 {
        formScaleX := DefaultFormScale;
      }
      if formScaleY <= 0.0 {
        formScaleY := DefaultFormScale;
      }
      var red := EffectiveRedOverlay(redOverlaySeconds);
      redOverlaySeconds := red;
      redTrackerOverlaySec := red;
    }

    /**
     * `ensure_defaults`: repairs the profile list, the selection, each skill item in turn,
     * the form scales and the red-overlay fields.
     */
    method EnsureDefaults()
      modifies this
      ensures Data() == EnsureDefaultsData(old(Data()))
    {
      RepairProfilesAndSelection();
      skillItems := RepairSkillItems(skillItems, ProfileIds(profiles), lastSelectedProfileId);
      RepairDisplay();
      EnsureDefaultsFieldwise(old(Data()), Data());
    }
  }
}
