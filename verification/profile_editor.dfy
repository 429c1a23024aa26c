/**
 * The data side of the profile and skill editing in src/d2rso/main_window.py: adding,
 * renaming and removing profiles, adding and removing skill items, and the choice of the
 * profile selected after a removal. The profile combo box is reduced to the id it
 * currently selects; widgets, dialogs and saving to disk are not part of this model.
 */
module ProfileEditor {
  import opened Wrappers
  import opened Text
  import opened Models

  // ---------------------------------------------------------------------------
  // Ids

  /** `max(xs, default=default)`: the largest element, or the default when there is none. */
  function MaxOr(xs: seq<int>, default: int): (r: int)
    ensures forall k | 0 <= k < |xs| :: xs[k] <= r
    ensures xs == [] ==> r == default
    ensures xs != [] ==> exists k | 0 <= k < |xs| :: xs[k] == r
    decreases |xs|
  {
    if xs == [] then default
    else if |xs| == 1 then xs[0]
    else
      var rest := MaxOr(xs[1..], default);
      assert forall k | 1 <= k < |xs| :: xs[k] == xs[1..][k - 1];
      if xs[0] >= rest then xs[0] else rest
  }

  function ProfileIdList(profiles: seq<Profile>): (r: seq<int>)
    ensures |r| == |profiles| && forall k | 0 <= k < |profiles| :: r[k] == profiles[k].id
  {
    seq(|profiles|, k requires 0 <= k < |profiles| => profiles[k].id)
  }

  function SkillIdList(items: seq<SkillConfig>): (r: seq<int>)
    ensures |r| == |items| && forall k | 0 <= k < |items| :: r[k] == items[k].id
  {
    seq(|items|, k requires 0 <= k < |items| => items[k].id)
  }

  /** The id `add_profile` gives a new profile: one more than the largest, or 0 for the first. */
  function NextProfileId(profiles: seq<Profile>): int {
    MaxOr(ProfileIdList(profiles), -1) + 1
  }

  /** The id `add_skill_to_current_profile` gives a new item: one more than the largest, or 1 for the first. */
  function NextSkillId(items: seq<SkillConfig>): int {
    MaxOr(SkillIdList(items), 0) + 1
  }

  /** The position of the first profile with the id, or the length when there is none. */
  function ProfileIndex(profiles: seq<Profile>, id: int): (i: nat)
    ensures i <= |profiles|
    ensures i < |profiles| ==> profiles[i].id == id
    ensures forall k | 0 <= k < i :: profiles[k].id != id
    decreases |profiles|
  {
    if profiles == [] then 0
    else if profiles[0].id == id then 0
    else 1 + ProfileIndex(profiles[1..], id)
  }

  // ---------------------------------------------------------------------------
  // The list comprehensions

  /** The profiles whose id differs from `id`, in order. */
  function ProfilesWithout(profiles: seq<Profile>, id: int): (r: seq<Profile>)
    ensures forall p :: p in r <==> p in profiles && p.id != id
    ensures |r| <= |profiles|
    decreases |profiles|
  {
    if profiles == [] then []
    else
      var n := |profiles| - 1;
      var rest := ProfilesWithout(profiles[..n], id);
      assert profiles == profiles[..n] + [profiles[n]];
      if profiles[n].id != id then rest + [profiles[n]] else rest
  }

  /** The skill items that belong to another profile than `profileId`, in order. */
  function SkillsOfOtherProfiles(items: seq<SkillConfig>, profileId: int): (r: seq<SkillConfig>)
    ensures forall c :: c in r <==> c in items && c.profileId != profileId
    decreases |items|
  {
    if items == [] then []
    else
      var n := |items| - 1;
      var rest := SkillsOfOtherProfiles(items[..n], profileId);
      assert items == items[..n] + [items[n]];
      if items[n].profileId != profileId then rest + [items[n]] else rest
  }

  /** The skill items whose id differs from `id`, in order: shorter exactly when some item has that id. */
  function SkillsWithoutId(items: seq<SkillConfig>, id: int): (r: seq<SkillConfig>)
    ensures forall c :: c in r <==> c in items && c.id != id
    ensures |r| <= |items|
    ensures |r| == |items| <==> forall k | 0 <= k < |items| :: items[k].id != id
    ensures |r| == |items| ==> r == items
    decreases |items|
  {
    if items == [] then []
    else
      var n := |items| - 1;
      var rest := SkillsWithoutId(items[..n], id);
      assert items == items[..n] + [items[n]];
      if items[n].id != id then rest + [items[n]] else rest
  }

  // ---------------------------------------------------------------------------
  // Pure helpers of the window

  /**
   * `_replacement_profile_id_after_removal`: the remaining profile at the removed one's
   * old position, clamped to the last remaining one, or 0 when none remain.
   */
  function ReplacementProfileId(profiles: seq<Profile>, removedId: int): (r: int)
    ensures ProfilesWithout(profiles, removedId) == [] ==> r == 0
    ensures ProfilesWithout(profiles, removedId) != [] ==>
      exists k | 0 <= k < |ProfilesWithout(profiles, removedId)| :: ProfilesWithout(profiles, removedId)[k].id == r
  {
    var remaining := ProfilesWithout(profiles, removedId);
    if remaining == [] then 0
    else
      var found := ProfileIndex(profiles, removedId);
      var removedIndex := if found < |profiles| then found else |remaining| - 1;
      var replacementIndex := if removedIndex < |remaining| - 1 then removedIndex else |remaining| - 1;
      remaining[replacementIndex].id
  }

  /** The words `_env_var_enabled` accepts. */
  const EnabledWords: set<string> := {"1", "true", "yes", "on"}

  /** `_env_var_enabled` on the variable's value, `None` when it is unset. */
  predicate EnvVarEnabled(raw: Option<string>) {
    raw.Some? && Lower(Strip(raw.value)) in EnabledWords
  }

  // ---------------------------------------------------------------------------
  // The window's settings and selection

  /** The settings a main window edits, and the profile id its profile combo box selects. */
  class ProfileEditor {
    const settings: Settings
    var selectedProfileId: Option<int>

    constructor (settings: Settings, selectedProfileId: Option<int>)
      ensures this.settings == settings && this.selectedProfileId == selectedProfileId
    {
      this.settings := settings;
      this.selectedProfileId := selectedProfileId;
    }

    /** `_current_profile`: the position of the first profile with the selected id, if any. */
    function CurrentProfileIndex(): (i: Option<nat>)
      reads this, settings
      ensures i.Some? ==> i.value < |settings.profiles| && selectedProfileId == Some(settings.profiles[i.value].id)
      ensures i.None? ==> selectedProfileId.None? || forall k | 0 <= k < |settings.profiles| :: settings.profiles[k].id != selectedProfileId.value
    {
      if selectedProfileId.None? then None
      else
        var i := ProfileIndex(settings.profiles, selectedProfileId.value);
        if i < |settings.profiles| then Some(i) else None
    }

    /**
     * `_refresh_profiles`: selects the target id when a profile has it, else the first
     * profile, else nothing; a selection becomes the last selected profile.
     */
    method RefreshProfiles(target: int)
      modifies this`selectedProfileId, settings`lastSelectedProfileId
      ensures selectedProfileId ==
        if ProfileIndex(settings.profiles, target) < |settings.profiles| then Some(target)
        else if settings.profiles != [] then Some(settings.profiles[0].id)
        else None
      ensures settings.lastSelectedProfileId == if selectedProfileId.Some? then selectedProfileId.value else old(settings.lastSelectedProfileId)
    {
      var index := ProfileIndex(settings.profiles, target);
      if index < |settings.profiles| {
        selectedProfileId := Some(target);
      } else if settings.profiles != [] {
        selectedProfileId := Some(settings.profiles[0].id);
      } else {
        selectedProfileId := None;
      }
      if selectedProfileId.Some? {
        settings.lastSelectedProfileId := selectedProfileId.value;
      }
    }

    /**
     * `add_profile`: a name that is blank once trimmed is refused; otherwise a profile with a
     * fresh id and the trimmed name is appended and selected.
     */
    method AddProfile(name: string) returns (r: Option<Profile>)
      modifies settings`profiles, settings`lastSelectedProfileId, this`selectedProfileId
      ensures Strip(name) == [] ==>
        && r.None? && settings.profiles == old(settings.profiles)
        && settings.lastSelectedProfileId == old(settings.lastSelectedProfileId) && selectedProfileId == old(selectedProfileId)
      ensures Strip(name) != [] ==>
        && r == Some(Profile(NextProfileId(old(settings.profiles)), Strip(name)))
        && settings.profiles == old(settings.profiles) + [r.value]
        && settings.lastSelectedProfileId == r.value.id && selectedProfileId == Some(r.value.id)
    {
      var normalizedName := Strip(name);
      if normalizedName == [] {
        return None;
      }
      var created := Profile(NextProfileId(settings.profiles), normalizedName);
      settings.profiles := settings.profiles + [created];
      settings.lastSelectedProfileId := created.id;
      assert ProfileIndex(settings.profiles, created.id) < |settings.profiles| by {
        assert settings.profiles[|settings.profiles| - 1].id == created.id;
      }
      RefreshProfiles(created.id);
      return Some(created);
    }

    /**
     * `rename_current_profile`: refused without a current profile or with a blank name;
     * otherwise the current profile takes the trimmed name and stays selected.
     */
    method RenameCurrentProfile(name: string) returns (r: bool)
      modifies settings`profiles, settings`lastSelectedProfileId, this`selectedProfileId
      ensures r <==> old(CurrentProfileIndex()).Some? && Strip(name) != []
      ensures !r ==>
        && settings.profiles == old(settings.profiles) && selectedProfileId == old(selectedProfileId)
        && settings.lastSelectedProfileId == old(settings.lastSelectedProfileId)
      ensures r ==> var i := old(CurrentProfileIndex()).value;
        && settings.profiles == old(settings.profiles)[i := Profile(old(settings.profiles)[i].id, Strip(name))]
        && selectedProfileId == old(selectedProfileId)
        && settings.lastSelectedProfileId == old(selectedProfileId).value
    {
      var current := CurrentProfileIndex();
      if current.None? {
        return false;
      }
      var normalizedName := Strip(name);
      if normalizedName == [] {
        return false;
      }
      var i := current.value;
      var id := settings.profiles[i].id;
      settings.profiles := settings.profiles[i := Profile(id, normalizedName)];
      assert ProfileIndex(settings.profiles, id) < |settings.profiles| by {
        assert settings.profiles[i].id == id;
      }
      RefreshProfiles(id);
      return true;
    }

    /**
     * `remove_current_profile`: refused without a current profile or when it is the only
     * one. Otherwise deletes the profile and its skill items, repairs the settings (which
     * re-creates profile 0 when it was the one removed), and selects the replacement.
     */
    method RemoveCurrentProfile() returns (r: bool)
      modifies settings, this`selectedProfileId
      ensures r <==> old(CurrentProfileIndex()).Some? && |old(settings.profiles)| > 1
      ensures !r ==> settings.Data() == old(settings.Data()) && selectedProfileId == old(selectedProfileId)
      ensures r ==>
        var id := old(selectedProfileId).value;
        var replacement := ReplacementProfileId(old(settings.profiles), id);
        && settings.Data() == RemovedData(old(settings.Data()), id)
        && settings.lastSelectedProfileId == replacement
        && selectedProfileId == Some(replacement)
    {
      var current := CurrentProfileIndex();
      if current.None? {
        return false;
      }
      if |settings.profiles| <= 1 {
        return false;
      }
      var id := settings.profiles[current.value].id;
      ghost var before := settings.Data();
      RemoveProfileData(settings, id);
      ReplacementIsListed(before.profiles, id);
      RefreshProfiles(settings.lastSelectedProfileId);
      return true;
    }

    /**
     * `add_skill_to_current_profile`: without a current profile nothing is added; otherwise
     * an enabled item with a fresh id, the default icon, duration and skill key and no
     * select key is appended to the current profile.
     */
    method AddSkillToCurrentProfile(defaultIconName: string) returns (r: Option<SkillConfig>)
      modifies settings`skillItems
      ensures old(CurrentProfileIndex()).None? ==> r.None? && settings.skillItems == old(settings.skillItems)
      ensures old(CurrentProfileIndex()).Some? ==>
        && r == Some(SkillConfig(NextSkillId(old(settings.skillItems)), old(selectedProfileId).value, defaultIconName,
                                 DefaultSkillDuration, true, None, Some(DefaultSkillKey)))
        && settings.skillItems == old(settings.skillItems) + [r.value]
    {
      var current := CurrentProfileIndex();
      if current.None? {
        return None;
      }
      var item := SkillConfig(NextSkillId(settings.skillItems), settings.profiles[current.value].id, defaultIconName,
                              DefaultSkillDuration, true, None, Some(DefaultSkillKey));
      settings.skillItems := settings.skillItems + [item];
      return Some(item);
    }

    /** `remove_skill`: drops every item with the id, and reports whether there was one. */
    method RemoveSkill(skillId: int) returns (r: bool)
      modifies settings`skillItems
      ensures settings.skillItems == SkillsWithoutId(old(settings.skillItems), skillId)
      ensures r <==> exists k | 0 <= k < |old(settings.skillItems)| :: old(settings.skillItems)[k].id == skillId
      ensures !r ==> settings.skillItems == old(settings.skillItems)
    {
      var currentCount := |settings.skillItems|;
      settings.skillItems := SkillsWithoutId(settings.skillItems, skillId);
      return |settings.skillItems| != currentCount;
    }
  }

  /** The settings after removing the profile `id`: filtered lists, then `ensure_defaults`, then the replacement selected. */
  function RemovedData(d: SettingsData, id: int): SettingsData {
    EnsureDefaultsData(d.(profiles := ProfilesWithout(d.profiles, id), skillItems := SkillsOfOtherProfiles(d.skillItems, id)))
      .(lastSelectedProfileId := ReplacementProfileId(d.profiles, id))
  }

  /** The settings part of `remove_current_profile`, once the removal is allowed. */
  method RemoveProfileData(settings: Settings, id: int)
    modifies settings
    ensures settings.Data() == RemovedData(old(settings.Data()), id)
  {
    var replacement := ReplacementProfileId(settings.profiles, id);
    settings.profiles := ProfilesWithout(settings.profiles, id);
    settings.skillItems := SkillsOfOtherProfiles(settings.skillItems, id);
    settings.EnsureDefaults();
    settings.lastSelectedProfileId := replacement;
  }

  /** The replacement is a profile of the repaired list, so the combo box selects it. */
  lemma ReplacementIsListed(profiles: seq<Profile>, id: int)
    ensures var repaired := RepairProfiles(ProfilesWithout(profiles, id));
      ProfileIndex(repaired, ReplacementProfileId(profiles, id)) < |repaired|
  {
    var remaining := ProfilesWithout(profiles, id);
    var repaired := RepairProfiles(remaining);
    var r := ReplacementProfileId(profiles, id);
    ProfileIdsSpec(remaining);
    if remaining == [] {
      assert repaired[0] == DefaultProfile;
    } else {
      var k :| 0 <= k < |remaining| && remaining[k].id == r;
      if DefaultProfileId in ProfileIds(remaining) {
        assert repaired[k].id == r;
      } else {
        assert repaired[k + 1].id == r;
      }
    }
  }
}
