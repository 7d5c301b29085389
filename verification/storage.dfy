/**
 * `PantheonGoalsStorageManager`: typed accessors with fallback defaults
 * over the shared preference store, the artifact and achievement lists, and
 * the run-once default setup.
 */
module Storage {
  import opened Wrappers
  import opened Models
  import opened Store

  /** The four boolean settings, each under its own key. */
  datatype Setting = FirstLaunch | Sound | Haptic | Notifications

  function SettingKey(s: Setting): (k: Key)
    ensures k in {Key.IsFirstLaunch, Key.SoundEnabled, Key.HapticEnabled, Key.NotificationsEnabled}
  {
    match s
    case FirstLaunch => Key.IsFirstLaunch
    case Sound => Key.SoundEnabled
    case Haptic => Key.HapticEnabled
    case Notifications => Key.NotificationsEnabled
  }

  const DefaultUserName := "User"
  const DefaultUserAvatar := "avatarOne"

  /** The catalog with every entry locked: what the three `for i in 0..<count` loops produce. */
  function LockedCatalog(): (r: seq<Achievement>)
    ensures |r| == 5 && AchievementIds(r) == CatalogIds
    ensures forall i :: 0 <= i < 5 ==> r[i] == AllAchievements()[i].(isUnlocked := false)
  {
    AllAchievements()
  }

  /** `for i in 0..<achievements.count { achievements[i].isUnlocked = false }`. */
  method LockAll(achievements: seq<Achievement>) returns (r: seq<Achievement>)
    ensures |r| == |achievements|
    ensures forall i :: 0 <= i < |r| ==> r[i] == achievements[i].(isUnlocked := false)
  {
    r := achievements;
    for i := 0 to |r|
      invariant |r| == |achievements|
      invariant forall j :: 0 <= j < i ==> r[j] == achievements[j].(isUnlocked := false)
      invariant forall j :: i <= j < |r| ==> r[j] == achievements[j]
    {
      r := r[i := r[i].(isUnlocked := false)];
    }
  }

  /** What `loadArtifacts` yields for a store: the saved list, or [] when absent or undecodable. */
  function StoredArtifacts(m: Prefs): (r: seq<Artifact>)
    ensures (DataOf(m, Key.Artifacts).Some? && DataOf(m, Key.Artifacts).value.ArtifactList?) ==>
      r == DataOf(m, Key.Artifacts).value.artifacts
    ensures !(DataOf(m, Key.Artifacts).Some? && DataOf(m, Key.Artifacts).value.ArtifactList?) ==> r == []
  {
    match DataOf(m, Key.Artifacts)
    case Some(ArtifactList(list)) => list
    case _ => []
  }

  /** What `loadAchievements` yields: the saved list, or the locked catalog. */
  function StoredAchievements(m: Prefs): (r: seq<Achievement>)
    ensures (DataOf(m, Key.Achievements).Some? && DataOf(m, Key.Achievements).value.AchievementList?) ==>
      r == DataOf(m, Key.Achievements).value.achievements
    ensures !(DataOf(m, Key.Achievements).Some? && DataOf(m, Key.Achievements).value.AchievementList?) ==>
      r == LockedCatalog()
  {
    match DataOf(m, Key.Achievements)
    case Some(AchievementList(list)) => list
    case _ => LockedCatalog()
  }

  /** `setupDefaultValues` on a store. */
  function SetupDefaults(m: Prefs): (r: Prefs)
    ensures BoolOf(r, Key.DefaultsConfigured)
    ensures BoolOf(m, Key.DefaultsConfigured) ==> r == m
    ensures !BoolOf(m, Key.DefaultsConfigured) ==>
      && BoolOf(r, Key.IsFirstLaunch) && BoolOf(r, Key.SoundEnabled) && BoolOf(r, Key.HapticEnabled)
      && !BoolOf(r, Key.NotificationsEnabled)
      && StringOf(r, Key.UserName) == Some(DefaultUserName)
      && StringOf(r, Key.UserAvatar) == Some(DefaultUserAvatar)
      && StoredAchievements(r) == LockedCatalog()
      && forall k :: k in m && k !in SetupKeys() ==> k in r && r[k] == m[k]
  {
    if BoolOf(m, Key.DefaultsConfigured) then m
    else m[Key.IsFirstLaunch := BoolValue(true)]
          [Key.SoundEnabled := BoolValue(true)]
          [Key.HapticEnabled := BoolValue(true)]
          [Key.NotificationsEnabled := BoolValue(false)]
          [Key.UserName := StringValue(DefaultUserName)]
          [Key.UserAvatar := StringValue(DefaultUserAvatar)]
          [Key.Achievements := DataValue(AchievementList(LockedCatalog()))]
          [Key.DefaultsConfigured := BoolValue(true)]
  }

  function SetupKeys(): set<Key>
  {
    {Key.IsFirstLaunch, Key.SoundEnabled, Key.HapticEnabled, Key.NotificationsEnabled,
     Key.UserName, Key.UserAvatar, Key.Achievements, Key.DefaultsConfigured}
  }

  /** The setup runs once: a second call changes nothing. */
  lemma SetupDefaultsIdempotent(m: Prefs)
    ensures SetupDefaults(SetupDefaults(m)) == SetupDefaults(m)
  {
  }

  class StorageManager {
    const defaults: Defaults

    constructor(defaults: Defaults)
      ensures this.defaults == defaults
    {
      this.defaults := defaults;
    }

    /** `isFirstLaunch`, `isSoundEnabled`, `isHapticEnabled`, `isNotificationsEnabled`. */
    function Setting(s: Setting): (r: bool)
      reads defaults
      ensures SettingKey(s) !in defaults.entries ==> !r
    {
      BoolOf(defaults.entries, SettingKey(s))
    }

    method SetSetting(s: Setting, v: bool)
      modifies defaults
      ensures defaults.entries == old(defaults.entries)[SettingKey(s) := BoolValue(v)]
      ensures Setting(s) == v
    {
      defaults.Set(SettingKey(s), BoolValue(v));
    }

    function UserName(): (r: string)
      reads defaults
      ensures StringOf(defaults.entries, Key.UserName).None? ==> r == DefaultUserName
      ensures StringOf(defaults.entries, Key.UserName).Some? ==> r == defaults.entries[Key.UserName].s
    {
      match StringOf(defaults.entries, Key.UserName)
      case Some(s) => s
      case None => DefaultUserName
    }

    method SetUserName(v: string)
      modifies defaults
      ensures defaults.entries == old(defaults.entries)[Key.UserName := StringValue(v)]
      ensures UserName() == v
    {
      defaults.Set(Key.UserName, StringValue(v));
    }

    function UserAvatar(): (r: string)
      reads defaults
      ensures StringOf(defaults.entries, Key.UserAvatar).None? ==> r == DefaultUserAvatar
      ensures StringOf(defaults.entries, Key.UserAvatar).Some? ==> r == defaults.entries[Key.UserAvatar].s
    {
      match StringOf(defaults.entries, Key.UserAvatar)
      case Some(s) => s
      case None => DefaultUserAvatar
    }

    method SetUserAvatar(v: string)
      modifies defaults
      ensures defaults.entries == old(defaults.entries)[Key.UserAvatar := StringValue(v)]
      ensures UserAvatar() == v
    {
      defaults.Set(Key.UserAvatar, StringValue(v));
    }

    method SaveArtifacts(list: seq<Artifact>)
      modifies defaults
      ensures defaults.entries == old(defaults.entries)[Key.Artifacts := DataValue(ArtifactList(list))]
      ensures StoredArtifacts(defaults.entries) == list
    {
      defaults.Set(Key.Artifacts, DataValue(ArtifactList(list)));
    }

    method LoadArtifacts() returns (list: seq<Artifact>)
      ensures Key.Artifacts !in defaults.entries ==> list == []
      ensures Key.Artifacts in defaults.entries && defaults.entries[Key.Artifacts] == DataValue(Undecodable) ==> list == []
      ensures (Key.Artifacts in defaults.entries && defaults.entries[Key.Artifacts].DataValue?
               && defaults.entries[Key.Artifacts].blob.ArtifactList?) ==>
        list == defaults.entries[Key.Artifacts].blob.artifacts
      ensures list == StoredArtifacts(defaults.entries)
    {
      var data := DataOf(defaults.entries, Key.Artifacts);
      if data.Some? && data.value.ArtifactList? {
        list := data.value.artifacts;
      } else {
        list := [];
      }
    }

    method SaveAchievements(list: seq<Achievement>)
      modifies defaults
      ensures defaults.entries == old(defaults.entries)[Key.Achievements := DataValue(AchievementList(list))]
      ensures StoredAchievements(defaults.entries) == list
    {
      defaults.Set(Key.Achievements, DataValue(AchievementList(list)));
    }

    method LoadAchievements() returns (list: seq<Achievement>)
      ensures Key.Achievements !in defaults.entries ==> list == LockedCatalog()
      ensures |list| == 5 && AchievementIds(list) == CatalogIds && (forall i :: 0 <= i < 5 ==> !list[i].isUnlocked)
        <== !(Key.Achievements in defaults.entries && defaults.entries[Key.Achievements].DataValue?
              && defaults.entries[Key.Achievements].blob.AchievementList?)
      ensures list == StoredAchievements(defaults.entries)
    {
      var data := DataOf(defaults.entries, Key.Achievements);
      if data.Some? && data.value.AchievementList? {
        list := data.value.achievements;
      } else {
        list := LockAll(AllAchievements());
        assert list == LockedCatalog();
      }
    }

    method SetupDefaultValues()
      modifies defaults
      ensures defaults.entries == SetupDefaults(old(defaults.entries))
    {
      ghost var m := defaults.entries;
      if !BoolOf(defaults.entries, Key.DefaultsConfigured) {
        SetSetting(FirstLaunch, true);
        SetSetting(Sound, true);
        SetSetting(Haptic, true);
        SetSetting(Notifications, false);
        SetUserName(DefaultUserName);
        SetUserAvatar(DefaultUserAvatar);
        var achievements := LockAll(AllAchievements());
        assert achievements == LockedCatalog();
        SaveAchievements(achievements);
        assert defaults.entries == m[Key.IsFirstLaunch := BoolValue(true)]
                                    [Key.SoundEnabled := BoolValue(true)]
                                    [Key.HapticEnabled := BoolValue(true)]
                                    [Key.NotificationsEnabled := BoolValue(false)]
                                    [Key.UserName := StringValue(DefaultUserName)]
                                    [Key.UserAvatar := StringValue(DefaultUserAvatar)]
                                    [Key.Achievements := DataValue(AchievementList(LockedCatalog()))];
        defaults.Set(Key.DefaultsConfigured, BoolValue(true));
      }
    }

    method ResetAchievements()
      modifies defaults
      ensures defaults.entries == old(defaults.entries)[Key.Achievements := DataValue(AchievementList(LockedCatalog()))]
      ensures StoredAchievements(defaults.entries) == LockedCatalog()
    {
      var achievements := LockAll(AllAchievements());
      assert achievements == LockedCatalog();
      SaveAchievements(achievements);
    }
  }
}
