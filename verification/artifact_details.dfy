/**
 * `PantheonGoalsArtifactDetailsVC`: the screen that owns one artifact,
 * adds and swipes away contributions, and writes the artifact and the
 * achievements back to the store.
 */
module ArtifactDetails {
  import opened Wrappers
  import opened Models
  import opened Store
  import opened Ledger
  import opened Storage

  /** The store after `saveArtifact`: only the stored artifact list can change. */
  function ArtifactSaved(m: Prefs, a: Artifact): (r: Prefs)
    ensures forall k :: k in m && k != Key.Artifacts ==> k in r && r[k] == m[k]
    ensures (forall j :: 0 <= j < |StoredArtifacts(m)| ==> StoredArtifacts(m)[j].id != a.id) ==> r == m
    ensures (exists j :: 0 <= j < |StoredArtifacts(m)| && StoredArtifacts(m)[j].id == a.id) ==>
      exists k :: FirstMatch(ArtifactIds(StoredArtifacts(m)), a.id, k) && StoredArtifacts(r) == StoredArtifacts(m)[k := a]
  {
    match ReplaceFirst(StoredArtifacts(m), a)
    case None => m
    case Some(list) => m[Key.Artifacts := DataValue(ArtifactList(list))]
  }

  /** The store after `deleteArtifact`: every entry with the id is gone. */
  function ArtifactDeleted(m: Prefs, id: string): (r: Prefs)
    ensures forall k :: k in m && k != Key.Artifacts ==> k in r && r[k] == m[k]
    ensures forall j :: 0 <= j < |StoredArtifacts(r)| ==> StoredArtifacts(r)[j].id != id
    ensures |StoredArtifacts(r)| == |StoredArtifacts(m)| - CountId(StoredArtifacts(m), id)
  {
    RemoveAllCount(StoredArtifacts(m), id);
    m[Key.Artifacts := DataValue(ArtifactList(RemoveAll(StoredArtifacts(m), id)))]
  }

  /** The store after `checkAchievements` on day `today`. */
  function AchievementsChecked(m: Prefs, deadline: Option<Day>, today: Day): (r: Prefs)
    ensures forall k :: k in m && k != Key.Achievements ==> k in r && r[k] == m[k]
    ensures StoredAchievements(r) == CheckedAchievements(StoredAchievements(m), deadline, today)
    ensures |StoredAchievements(r)| == |StoredAchievements(m)|
    ensures forall j :: 0 <= j < |StoredAchievements(m)| && StoredAchievements(m)[j].isUnlocked ==>
      StoredAchievements(r)[j].isUnlocked
  {
    m[Key.Achievements := DataValue(AchievementList(CheckedAchievements(StoredAchievements(m), deadline, today)))]
  }

  class DetailsScreen {
    var artifact: Artifact
    const storage: StorageManager

    constructor(artifact: Artifact, storage: StorageManager)
      ensures this.artifact == artifact && this.storage == storage
    {
      this.artifact := artifact;
      this.storage := storage;
    }

    /**
     * The alert's "Add" action: the amount text parsed to `parsed` (nil when
     * it is not a number); anything but a positive amount is ignored.
     */
    method AddTapped(parsed: Option<real>, comment: Option<string>, newId: string, now: Day)
      modifies this`artifact, storage.defaults
      ensures AcceptedAmount(parsed).None? ==>
        artifact == old(artifact) && storage.defaults.entries == old(storage.defaults.entries)
      ensures AcceptedAmount(parsed).Some? ==>
        artifact == WithContribution(old(artifact), NewContribution(newId, parsed.value, now, comment))
      ensures AcceptedAmount(parsed).Some? ==>
        storage.defaults.entries == ArtifactSaved(
          if artifact.isCompleted then AchievementsChecked(old(storage.defaults.entries), artifact.deadline, now)
          else old(storage.defaults.entries),
          artifact)
    {
      var amount := AcceptedAmount(parsed);
      if amount.Some? {
        AddContribution(amount.value, comment, newId, now);
      }
    }

    /** `addContribution`: append, check achievements when completed, save. */
    method AddContribution(amount: real, comment: Option<string>, newId: string, now: Day)
      modifies this`artifact, storage.defaults
      ensures artifact == WithContribution(old(artifact), NewContribution(newId, amount, now, comment))
      ensures artifact.contributions == old(artifact.contributions) + [NewContribution(newId, amount, now, comment)]
      ensures artifact.currentAmount == old(artifact.currentAmount) + amount
      ensures CompletionConsistent(artifact)
      ensures AmountConsistent(old(artifact)) ==> AmountConsistent(artifact)
      ensures storage.defaults.entries == ArtifactSaved(
        if artifact.isCompleted then AchievementsChecked(old(storage.defaults.entries), artifact.deadline, now)
        else old(storage.defaults.entries),
        artifact)
    {
      var contribution := NewContribution(newId, amount, now, comment);
      artifact := WithContribution(artifact, contribution);
      if artifact.isCompleted {
        CheckAchievements(now);
      }
      SaveArtifact();
    }

    /** `deleteContribution(at:)`, reached by swiping row i; the screen then saves. */
    method DeleteContribution(i: nat)
      requires i < |artifact.contributions|
      modifies this`artifact, storage.defaults
      ensures artifact == WithoutContribution(old(artifact), i)
      ensures artifact.contributions == old(artifact.contributions)[..i] + old(artifact.contributions)[i + 1..]
      ensures artifact.currentAmount == old(artifact.currentAmount) - old(artifact.contributions)[i].amount
      ensures CompletionConsistent(artifact)
      ensures AmountConsistent(old(artifact)) ==> AmountConsistent(artifact)
      ensures storage.defaults.entries == ArtifactSaved(old(storage.defaults.entries), artifact)
    {
      artifact := WithoutContribution(artifact, i);
      SaveArtifact();
    }

    method DeleteArtifact()
      modifies storage.defaults
      ensures storage.defaults.entries == ArtifactDeleted(old(storage.defaults.entries), artifact.id)
    {
      var artifacts := storage.LoadArtifacts();
      artifacts := RemoveAll(artifacts, artifact.id);
      storage.SaveArtifacts(artifacts);
    }

    method SaveArtifact()
      modifies storage.defaults
      ensures storage.defaults.entries == ArtifactSaved(old(storage.defaults.entries), artifact)
    {
      var artifacts := storage.LoadArtifacts();
      var index := FirstIndex(ArtifactIds(artifacts), artifact.id);
      if index.Some? {
        artifacts := artifacts[index.value := artifact];
        storage.SaveArtifacts(artifacts);
      }
    }

    /** `checkAchievements`; "now" is the current day. */
    method CheckAchievements(now: Day)
      modifies storage.defaults
      ensures storage.defaults.entries == AchievementsChecked(old(storage.defaults.entries), artifact.deadline, now)
    {
      var achievements := storage.LoadAchievements();
      ghost var loaded := achievements;
      achievements := UnlockInPlace(achievements, CompletedArtifactId);
      if artifact.deadline == Some(now) {
        achievements := UnlockInPlace(achievements, OnTimeId);
      }
      if AllOthersUnlocked(achievements) {
        achievements := UnlockInPlace(achievements, StrengthOfAthenaId);
      }
      assert achievements == CheckedAchievements(loaded, artifact.deadline, now);
      storage.SaveAchievements(achievements);
    }
  }
}
