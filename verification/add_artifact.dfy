/**
 * `PantheonGoalsAddArtifactVC`: the form that creates an artifact, appends
 * it to the stored list and unlocks first_step / collector.
 */
module AddArtifact {
  import opened Wrappers
  import opened Models
  import opened Store
  import opened Ledger
  import opened Storage

  const NoDeadlineText := "No Deadline"

  /** The picture names offered by the form, in display order. */
  const ImageNames: seq<string> := ["copilOne", "copilTwo", "copilThree", "copilFour", "copilFive", "copilSix", "copilSeven"]

  /**
   * The save guard: a non-empty name, a non-empty amount text that parsed
   * (to `parsed`) as a positive number, and a selected image.
   */
  predicate FormAccepted(name: Option<string>, amountText: Option<string>, parsed: Option<real>, image: Option<string>)
  {
    && name.Some? && name.value != ""
    && amountText.Some? && amountText.value != ""
    && parsed.Some? && parsed.value > 0.0
    && image.Some?
  }

  /**
   * The deadline: the labelText text parsed by the date formatter (to
   * `parsedDate`), unless the labelText is missing or reads "No Deadline".
   */
  function DeadlineOf(labelText: Option<string>, parsedDate: Option<Day>): (d: Option<Day>)
    ensures labelText == Some(NoDeadlineText) ==> d == None
    ensures labelText.None? || parsedDate.None? ==> d == None
    ensures d.Some? ==> d == parsedDate
    ensures labelText.Some? && labelText.value != NoDeadlineText && parsedDate.Some? ==> d == parsedDate
  {
    if labelText.Some? && labelText.value != NoDeadlineText && parsedDate.Some? then parsedDate else None
  }

  /** The store after a successful save of `a`. */
  function Created(m: Prefs, a: Artifact): (r: Prefs)
    ensures StoredArtifacts(r) == StoredArtifacts(m) + [a]
    ensures forall k :: k in m && k !in {Key.Artifacts, Key.Achievements} ==> k in r && r[k] == m[k]
    ensures var count := |StoredArtifacts(m)| + 1;
      (count == 1 || count == 3 ==> StoredAchievements(r) == CreationUnlocks(StoredAchievements(m), count))
      && (count != 1 && count != 3 ==> Key.Achievements in m ==> Key.Achievements in r && r[Key.Achievements] == m[Key.Achievements])
  {
    var list := StoredArtifacts(m) + [a];
    var m1 := m[Key.Artifacts := DataValue(ArtifactList(list))];
    if |list| == 1 || |list| == 3 then
      m1[Key.Achievements := DataValue(AchievementList(CreationUnlocks(StoredAchievements(m1), |list|)))]
    else m1
  }

  class AddArtifactScreen {
    var selectedImage: Option<string>
    const storage: StorageManager

    constructor(storage: StorageManager)
      ensures selectedImage == None && this.storage == storage
    {
      selectedImage := None;
      this.storage := storage;
    }

    /** Tapping picture i of the collection. */
    method SelectImage(i: nat)
      requires i < |ImageNames|
      modifies this`selectedImage
      ensures selectedImage == Some(ImageNames[i])
    {
      selectedImage := Some(ImageNames[i]);
    }

    /**
     * `saveButtonTapped`. Library results are inputs: `parsed` is the amount
     * text as a number, `parsedDate` the deadline labelText as a date, `newId`
     * the fresh UUID. Returns whether the artifact was saved.
     */
    method SaveTapped(name: Option<string>, amountText: Option<string>, parsed: Option<real>,
                      deadlineLabel: Option<string>, parsedDate: Option<Day>, newId: string)
      returns (saved: bool)
      modifies storage.defaults
      ensures saved <==> FormAccepted(name, amountText, parsed, selectedImage)
      ensures !saved ==> storage.defaults.entries == old(storage.defaults.entries)
      ensures saved ==> storage.defaults.entries == Created(old(storage.defaults.entries),
        NewArtifact(newId, name.value, parsed.value, selectedImage.value, DeadlineOf(deadlineLabel, parsedDate)))
    {
      if !FormAccepted(name, amountText, parsed, selectedImage) {
        return false;
      }
      var deadline := DeadlineOf(deadlineLabel, parsedDate);
      var artifact := NewArtifact(newId, name.value, parsed.value, selectedImage.value, deadline);
      var artifacts := storage.LoadArtifacts();
      artifacts := artifacts + [artifact];
      storage.SaveArtifacts(artifacts);
      if |artifacts| == 1 {
        var achievements := storage.LoadAchievements();
        achievements := UnlockInPlace(achievements, FirstStepId);
        storage.SaveAchievements(achievements);
      }
      if |artifacts| == 3 {
        var achievements := storage.LoadAchievements();
        achievements := UnlockInPlace(achievements, CollectorId);
        storage.SaveAchievements(achievements);
      }
      saved := true;
    }
  }

  /** A created artifact starts out empty and consistent with the ledger invariants. */
  lemma CreatedArtifactConsistent(name: Option<string>, amountText: Option<string>, parsed: Option<real>,
                                  image: Option<string>, deadline: Option<Day>, id: string)
    requires FormAccepted(name, amountText, parsed, image)
    ensures var a := NewArtifact(id, name.value, parsed.value, image.value, deadline);
      AmountConsistent(a) && CompletionConsistent(a) && a.contributions == [] && !a.isCompleted
  {
  }
}
