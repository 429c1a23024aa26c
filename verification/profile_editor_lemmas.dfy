/**
 * What the profile and skill editing of src/d2rso/main_window.py promises: new ids are
 * fresh, removing a profile deletes its skill items and selects a neighbour that still
 * exists, and profile 0 comes back whenever it is removed.
 */
module ProfileEditorLemmas {
  import opened Wrappers
  import opened Text
  import opened Models
  import opened ProfileEditor

  // ---------------------------------------------------------------------------
  // Fresh ids

  /** A new profile's id is larger than every existing one, and 0 for the first profile. */
  lemma NextProfileIdFresh(profiles: seq<Profile>)
    ensures forall k | 0 <= k < |profiles| :: profiles[k].id < NextProfileId(profiles)
    ensures profiles == [] ==> NextProfileId(profiles) == 0
  {
  }

  /** A new skill item's id is larger than every existing one, and 1 for the first item. */
  lemma NextSkillIdFresh(items: seq<SkillConfig>)
    ensures forall k | 0 <= k < |items| :: items[k].id < NextSkillId(items)
    ensures items == [] ==> NextSkillId(items) == 1
  {
  }

  // ---------------------------------------------------------------------------
  // Removal

  predicate UniqueProfileIds(profiles: seq<Profile>) {
    forall i, j | 0 <= i < j < |profiles| :: profiles[i].id != profiles[j].id
  }

  /** Removing an id from two lists joined is removing it from each. */
  lemma {:induction false} ProfilesWithoutAppend(a: seq<Profile>, b: seq<Profile>, id: int)
    ensures ProfilesWithout(a + b, id) == ProfilesWithout(a, id) + ProfilesWithout(b, id)
    decreases |b|
  {
    if b == [] {
      assert a + b == a;
    } else {
      var n := |b| - 1;
      assert (a + b)[..|a + b| - 1] == a + b[..n];
      assert (a + b)[|a + b| - 1] == b[n];
      ProfilesWithoutAppend(a, b[..n], id);
      var x := ProfilesWithout(a, id);
      var y := ProfilesWithout(b[..n], id);
      if b[n].id != id {
        assert (x + y) + [b[n]] == x + (y + [b[n]]);
      }
    }
  }

  /** With one profile per id, removing an id takes out exactly the profile at its position. */
  lemma {:induction false} ProfilesWithoutAt(profiles: seq<Profile>, i: nat)
    requires UniqueProfileIds(profiles) && i < |profiles|
    ensures ProfilesWithout(profiles, profiles[i].id) == profiles[..i] + profiles[i + 1..]
    decreases |profiles|
  {
    var id := profiles[i].id;
    var n := |profiles| - 1;
    var init := profiles[..n];
    if i == n {
      forall k | 0 <= k < n
        ensures init[k].id != id
      {
        assert init[k] == profiles[k];
      }
      ProfilesWithoutNone(init, id);
      ProfilesWithoutLast(profiles, id);
      assert profiles[..i] + profiles[i + 1..] == init;
    } else {
      assert init[i] == profiles[i];
      UniqueProfileIdsPrefix(profiles);
      ProfilesWithoutAt(init, i);
      assert profiles[n].id != id;
      ProfilesWithoutLast(profiles, id);
      SpliceBeforeLast(profiles, i);
    }
  }

  lemma UniqueProfileIdsPrefix(profiles: seq<Profile>)
    requires UniqueProfileIds(profiles) && profiles != []
    ensures UniqueProfileIds(profiles[..|profiles| - 1])
  {
    var init := profiles[..|profiles| - 1];
    forall j, k | 0 <= j < k < |init|
      ensures init[j].id != init[k].id
    {
      assert init[j] == profiles[j] && init[k] == profiles[k];
    }
  }

  /** Cutting out an element before the last one commutes with taking the last one off. */
  lemma SpliceBeforeLast<T>(s: seq<T>, i: nat)
    requires i < |s| - 1
    ensures var init := s[..|s| - 1]; (init[..i] + init[i + 1..]) + [s[|s| - 1]] == s[..i] + s[i + 1..]
  {
    var init := s[..|s| - 1];
    assert init[..i] == s[..i];
    assert init[i + 1..] + [s[|s| - 1]] == s[i + 1..];
  }

  /** Removing an id looks at the last profile and then at the ones before it. */
  lemma ProfilesWithoutLast(profiles: seq<Profile>, id: int)
    requires profiles != []
    ensures var n := |profiles| - 1;
      ProfilesWithout(profiles, id) ==
        if profiles[n].id != id then ProfilesWithout(profiles[..n], id) + [profiles[n]] else ProfilesWithout(profiles[..n], id)
  {
  }

  /** Removing an id no profile has changes nothing. */
  lemma {:induction false} ProfilesWithoutNone(profiles: seq<Profile>, id: int)
    requires forall k | 0 <= k < |profiles| :: profiles[k].id != id
    ensures ProfilesWithout(profiles, id) == profiles
    decreases |profiles|
  {
    if profiles != [] {
      var n := |profiles| - 1;
      ProfilesWithoutNone(profiles[..n], id);
      assert profiles == profiles[..n] + [profiles[n]];
    }
  }

  /**
   * With one profile per id, removing the profile at position `i` selects the one that
   * followed it, or the one before it when it was the last.
   */
  lemma ReplacementIsNeighbour(profiles: seq<Profile>, i: nat)
    requires UniqueProfileIds(profiles) && i < |profiles| && |profiles| > 1
    ensures ReplacementProfileId(profiles, profiles[i].id) ==
      if i < |profiles| - 1 then profiles[i + 1].id else profiles[i - 1].id
  {
    var id := profiles[i].id;
    ProfilesWithoutAt(profiles, i);
    var remaining := ProfilesWithout(profiles, id);
    assert |remaining| == |profiles| - 1;
    var found := ProfileIndex(profiles, id);
    assert found == i;
    if i < |profiles| - 1 {
      assert remaining[i] == profiles[i + 1];
    } else {
      assert remaining[i - 1] == profiles[i - 1];
    }
  }

  /** Removing profile 2 from profiles 0, 2, 3 selects profile 3. */
  lemma ReplacementExample()
    ensures ReplacementProfileId([Profile(0, "Default"), Profile(2, "B"), Profile(3, "C")], 2) == 3
  {
    var ps := [Profile(0, "Default"), Profile(2, "B"), Profile(3, "C")];
    ReplacementIsNeighbour(ps, 1);
  }

  /**
   * After a removal, the removed id is gone from the profiles and from every skill item,
   * unless it was profile 0, which comes back as the default profile; profile 0 exists and
   * every skill item and the selection name a profile that exists.
   */
  lemma RemovalCascades(d: SettingsData, id: int)
    ensures var e := RemovedData(d, id);
      var ids := ProfileIds(e.profiles);
      && DefaultProfileId in ids
      && ProfileIndex(e.profiles, e.lastSelectedProfileId) < |e.profiles|
      && (forall c | c in e.skillItems :: c.profileId in ids)
      && (id != DefaultProfileId ==>
            (forall k | 0 <= k < |e.profiles| :: e.profiles[k].id != id) && (forall c | c in e.skillItems :: c.profileId != id))
      && (id == DefaultProfileId ==> e.profiles[0] == DefaultProfile)
  {
    var remaining := ProfilesWithout(d.profiles, id);
    var e := RemovedData(d, id);
    var profiles := RepairProfiles(remaining);
    assert e.profiles == profiles;
    var ids := ProfileIds(profiles);
    RepairedProfilesHaveDefault(remaining);
    ReplacementIsListed(d.profiles, id);
    ProfileIdsSpec(profiles);
    ProfileIdsSpec(remaining);
    var fallback := RepairSelection(d.lastSelectedProfileId, ids);
    assert fallback in ids;
    forall c | c in e.skillItems
      ensures c.profileId in ids
    {
      var k :| 0 <= k < |e.skillItems| && e.skillItems[k] == c;
    }
    if id != DefaultProfileId {
      forall k | 0 <= k < |profiles|
        ensures profiles[k].id != id
      {
        if DefaultProfileId !in ProfileIds(remaining) && k > 0 {
          assert profiles[k] == remaining[k - 1];
        }
        assert profiles[k] in remaining || profiles[k] == DefaultProfile;
      }
      assert id !in ids;
      forall c | c in e.skillItems
        ensures c.profileId != id
      {
        var k :| 0 <= k < |e.skillItems| && e.skillItems[k] == c;
      }
    } else {
      assert DefaultProfileId !in ProfileIds(remaining);
    }
  }

  // ---------------------------------------------------------------------------
  // The tray switch

  /** Only a set variable can enable the switch, and surrounding whitespace does not matter. */
  lemma EnvVarEnabledTrimmed(s: string)
    ensures !EnvVarEnabled(None)
    ensures EnvVarEnabled(Some(s)) == EnvVarEnabled(Some(Strip(s)))
  {
    StripIdempotent(s);
  }

  /** "1", "TRUE", "Yes" and "on" enable the switch. */
  lemma EnvVarEnabledExamples()
    ensures EnvVarEnabled(Some("1")) && EnvVarEnabled(Some("TRUE")) && EnvVarEnabled(Some("Yes")) && EnvVarEnabled(Some("on"))
  {
    StripOfTrimmed("1");
    assert Lower("1") == "1";
    StripOfTrimmed("TRUE");
    assert Lower("TRUE") == "true";
    StripOfTrimmed("Yes");
    assert Lower("Yes") == "yes";
    StripOfTrimmed("on");
    assert Lower("on") == "on";
  }

  /** "0", "off" and the empty value do not enable the switch. */
  lemma EnvVarDisabledExamples()
    ensures !EnvVarEnabled(Some("0")) && !EnvVarEnabled(Some("off")) && !EnvVarEnabled(Some(""))
  {
    StripOfTrimmed("0");
    assert Lower("0") == "0";
    StripOfTrimmed("off");
    assert Lower("off") == "off";
  }
}
