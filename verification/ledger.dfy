/**
 * The goal ledger's rules, as functions on values: adding and removing a
 * contribution, replacing and deleting an artifact in the stored list, and
 * the achievement unlock rules. The screens in artifact_details.dfy and
 * add_artifact.dfy apply them to the preference store.
 */
module Ledger {
  import opened Wrappers
  import opened Models

  /** Position k is the first occurrence of id. */
  predicate FirstMatch(ids: seq<string>, id: string, k: int)
  {
    0 <= k < |ids| && ids[k] == id && forall j :: 0 <= j < k ==> ids[j] != id
  }

  /** `firstIndex(where: { $0.id == id })`. */
  function FirstIndex(ids: seq<string>, id: string): (r: Option<nat>)
    ensures r.Some? ==> FirstMatch(ids, id, r.value)
    ensures r.None? ==> forall j :: 0 <= j < |ids| ==> ids[j] != id
  {
    if ids == [] then None
    else if ids[0] == id then Some(0)
    else match FirstIndex(ids[1..], id)
      case None => None
      case Some(k) => Some(k + 1)
  }

  lemma FirstMatchUnique(ids: seq<string>, id: string, k: int, k': int)
    requires FirstMatch(ids, id, k) && FirstMatch(ids, id, k')
    ensures k == k'
  {
  }

  // ---------------------------------------------------------------------
  // Contributions

  /** Amount guard of the "Add" alert: the text must parse to a positive number. */
  function AcceptedAmount(parsed: Option<real>): (r: Option<real>)
    ensures r.Some? <==> parsed.Some? && parsed.value > 0.0
    ensures r.Some? ==> r.value == parsed.value
  {
    if parsed.Some? && parsed.value > 0.0 then parsed else None
  }

  /** `addContribution`: append, raise the amount, re-evaluate completion. */
  function WithContribution(a: Artifact, c: Contribution): (r: Artifact)
    ensures r.contributions == a.contributions + [c]
    ensures r.currentAmount == a.currentAmount + c.amount
    ensures CompletionConsistent(r)
    ensures AmountConsistent(a) ==> AmountConsistent(r)
    ensures r.id == a.id && r.name == a.name && r.targetAmount == a.targetAmount
    ensures r.imageName == a.imageName && r.deadline == a.deadline
  {
    var cs := a.contributions + [c];
    assert cs[..|cs| - 1] == a.contributions;
    var amount := a.currentAmount + c.amount;
    a.(contributions := cs, currentAmount := amount, isCompleted := amount >= a.targetAmount)
  }

  /** Removing element i takes exactly its amount off the sum. */
  lemma {:induction false} SumWithout(cs: seq<Contribution>, i: nat)
    requires i < |cs|
    ensures Sum(cs[..i] + cs[i + 1..]) == Sum(cs) - cs[i].amount
  {
    var n := |cs| - 1;
    if i == n {
      assert cs[..i] + cs[i + 1..] == cs[..n];
    } else {
      var front := cs[..n];
      SumWithout(front, i);
      var rest := cs[..i] + cs[i + 1..];
      assert rest[..|rest| - 1] == front[..i] + front[i + 1..];
      assert rest[|rest| - 1] == cs[n];
    }
  }

  /** `deleteContribution(at: i)`: take the amount off, drop element i, re-evaluate completion. */
  function WithoutContribution(a: Artifact, i: nat): (r: Artifact)
    requires i < |a.contributions|
    ensures r.contributions == a.contributions[..i] + a.contributions[i + 1..]
    ensures r.currentAmount == a.currentAmount - a.contributions[i].amount
    ensures CompletionConsistent(r)
    ensures AmountConsistent(a) ==> AmountConsistent(r)
    ensures r.id == a.id && r.name == a.name && r.targetAmount == a.targetAmount
    ensures r.imageName == a.imageName && r.deadline == a.deadline
  {
    SumWithout(a.contributions, i);
    var amount := a.currentAmount - a.contributions[i].amount;
    a.(contributions := a.contributions[..i] + a.contributions[i + 1..],
       currentAmount := amount,
       isCompleted := amount >= a.targetAmount)
  }

  /** Swiping away the contribution just added gives the artifact back. */
  lemma AddThenDeleteLastRestores(a: Artifact, c: Contribution)
    requires CompletionConsistent(a)
    ensures WithoutContribution(WithContribution(a, c), |a.contributions|) == a
  {
    var added := WithContribution(a, c);
    var n := |a.contributions|;
    assert added.contributions[..n] + added.contributions[n + 1..] == a.contributions;
  }

  // ---------------------------------------------------------------------
  // The stored artifact list

  /**
   * `saveArtifact`: the first stored entry with the artifact's id is
   * replaced; with no such entry nothing is to be saved (None).
   */
  function ReplaceFirst(list: seq<Artifact>, a: Artifact): (r: Option<seq<Artifact>>)
    ensures r.None? <==> forall j :: 0 <= j < |list| ==> list[j].id != a.id
    ensures r.Some? ==> exists k :: FirstMatch(ArtifactIds(list), a.id, k) && r.value == list[k := a]
  {
    match FirstIndex(ArtifactIds(list), a.id)
    case None => None
    case Some(k) => Some(list[k := a])
  }

  /** `removeAll { $0.id == id }`. */
  function RemoveAll(list: seq<Artifact>, id: string): (r: seq<Artifact>)
    ensures forall j :: 0 <= j < |r| ==> r[j].id != id
    ensures forall x :: x in r ==> x in list
    ensures |r| <= |list|
  {
    if list == [] then []
    else (if list[0].id == id then [] else [list[0]]) + RemoveAll(list[1..], id)
  }

  /** Removal works piecewise, so the survivors keep their relative order. */
  lemma {:induction false} RemoveAllAppend(xs: seq<Artifact>, ys: seq<Artifact>, id: string)
    ensures RemoveAll(xs + ys, id) == RemoveAll(xs, id) + RemoveAll(ys, id)
  {
    if xs == [] {
      assert xs + ys == ys;
    } else {
      assert (xs + ys)[1..] == xs[1..] + ys;
      RemoveAllAppend(xs[1..], ys, id);
    }
  }

  /** Entries with other ids are all kept, unchanged and in order. */
  lemma {:induction false} RemoveAllKeepsOthers(list: seq<Artifact>, id: string)
    requires forall j :: 0 <= j < |list| ==> list[j].id != id
    ensures RemoveAll(list, id) == list
  {
    if list != [] {
      RemoveAllKeepsOthers(list[1..], id);
    }
  }

  /** How many entries carry the id. */
  function CountId(list: seq<Artifact>, id: string): (n: nat)
    ensures n <= |list|
  {
    if list == [] then 0 else (if list[0].id == id then 1 else 0) + CountId(list[1..], id)
  }

  /** Every entry with the id is dropped, and only those. */
  lemma {:induction false} RemoveAllCount(list: seq<Artifact>, id: string)
    ensures |RemoveAll(list, id)| == |list| - CountId(list, id)
  {
    if list != [] {
      RemoveAllCount(list[1..], id);
    }
  }

  // ---------------------------------------------------------------------
  // Achievements

  /** `achievements[firstIndex(id)].isUnlocked = true`, when there is such an entry. */
  function UnlockFirst(list: seq<Achievement>, id: string): (r: seq<Achievement>)
    ensures |r| == |list|
    ensures forall j :: 0 <= j < |list| ==>
      r[j] == list[j].(isUnlocked := list[j].isUnlocked || FirstMatch(AchievementIds(list), id, j))
  {
    match FirstIndex(AchievementIds(list), id)
    case None => list
    case Some(k) => list[k := list[k].(isUnlocked := true)]
  }

  /** The screens' unlock step: look up the first index of the id, and set that entry's flag. */
  method UnlockInPlace(list: seq<Achievement>, id: string) returns (r: seq<Achievement>)
    ensures r == UnlockFirst(list, id)
    ensures |r| == |list| && AchievementIds(r) == AchievementIds(list)
  {
    r := list;
    var index := FirstIndex(AchievementIds(r), id);
    if index.Some? {
      r := r[index.value := r[index.value].(isUnlocked := true)];
    }
    assert AchievementIds(r) == AchievementIds(list);
  }

  /** The "Strength of Athena" condition: every other entry is unlocked. */
  predicate AllOthersUnlocked(list: seq<Achievement>)
  {
    forall j :: 0 <= j < |list| ==> list[j].id == StrengthOfAthenaId || list[j].isUnlocked
  }

  /**
   * `checkAchievements`, run when an artifact becomes completed on day
   * `today`: completed_artifact always, on_time when the deadline is
   * today, strength_of_athena when everything else is unlocked.
   */
  function CheckedAchievements(list: seq<Achievement>, deadline: Option<Day>, today: Day): (r: seq<Achievement>)
    ensures |r| == |list| && AchievementIds(r) == AchievementIds(list)
    ensures forall j :: 0 <= j < |list| && list[j].isUnlocked ==> r[j].isUnlocked
    ensures forall j :: 0 <= j < |list| ==> r[j] == list[j].(isUnlocked := r[j].isUnlocked)
    ensures forall j :: 0 <= j < |list| && r[j] != list[j] ==>
      list[j].id in {CompletedArtifactId, OnTimeId, StrengthOfAthenaId}
  {
    var withCompleted := UnlockFirst(list, CompletedArtifactId);
    var withOnTime := if deadline == Some(today) then UnlockFirst(withCompleted, OnTimeId) else withCompleted;
    if AllOthersUnlocked(withOnTime) then UnlockFirst(withOnTime, StrengthOfAthenaId) else withOnTime
  }

  lemma CheckUnlocksCompleted(list: seq<Achievement>, deadline: Option<Day>, today: Day, k: int)
    requires FirstMatch(AchievementIds(list), CompletedArtifactId, k)
    ensures CheckedAchievements(list, deadline, today)[k].isUnlocked
  {
    var ids := AchievementIds(list);
    var withCompleted := UnlockFirst(list, CompletedArtifactId);
    assert AchievementIds(withCompleted) == ids;
  }

  lemma CheckOnTime(list: seq<Achievement>, deadline: Option<Day>, today: Day, k: int)
    requires FirstMatch(AchievementIds(list), OnTimeId, k)
    ensures CheckedAchievements(list, deadline, today)[k].isUnlocked <==> list[k].isUnlocked || deadline == Some(today)
  {
    var ids := AchievementIds(list);
    var withCompleted := UnlockFirst(list, CompletedArtifactId);
    assert AchievementIds(withCompleted) == ids;
    assert withCompleted[k] == list[k];
  }

  /** Entry j is unlocked once the first two rules of `checkAchievements` have run. */
  predicate UnlockedByRules(list: seq<Achievement>, j: int, deadlineToday: bool)
    requires 0 <= j < |list|
  {
    var ids := AchievementIds(list);
    list[j].isUnlocked || FirstMatch(ids, CompletedArtifactId, j) || (deadlineToday && FirstMatch(ids, OnTimeId, j))
  }

  lemma CheckStrength(list: seq<Achievement>, deadline: Option<Day>, today: Day, k: int)
    requires FirstMatch(AchievementIds(list), StrengthOfAthenaId, k)
    ensures CheckedAchievements(list, deadline, today)[k].isUnlocked <==>
      list[k].isUnlocked ||
      forall j :: 0 <= j < |list| && list[j].id != StrengthOfAthenaId ==> UnlockedByRules(list, j, deadline == Some(today))
  {
    var ids := AchievementIds(list);
    var withCompleted := UnlockFirst(list, CompletedArtifactId);
    assert AchievementIds(withCompleted) == ids;
    var withOnTime := if deadline == Some(today) then UnlockFirst(withCompleted, OnTimeId) else withCompleted;
    assert AchievementIds(withOnTime) == ids;
    assert withOnTime[k] == list[k];
    assert forall j :: 0 <= j < |list| ==>
      (withOnTime[j].isUnlocked <==> UnlockedByRules(list, j, deadline == Some(today)));
  }

  /**
   * On the catalog's own layout: strength_of_athena ends unlocked exactly
   * when it already was, or first_step and collector are unlocked and
   * on_time is unlocked or the deadline is today.
   */
  lemma CheckStrengthOnCatalog(list: seq<Achievement>, deadline: Option<Day>, today: Day)
    requires AchievementIds(list) == CatalogIds
    ensures CheckedAchievements(list, deadline, today)[4].isUnlocked <==>
      list[4].isUnlocked || (list[0].isUnlocked && list[1].isUnlocked && (list[3].isUnlocked || deadline == Some(today)))
  {
    var ids := AchievementIds(list);
    assert DistinctIds(CatalogIds) by { var _ := AllAchievements(); }
    assert FirstMatch(ids, StrengthOfAthenaId, 4);
    assert FirstMatch(ids, CompletedArtifactId, 2);
    assert FirstMatch(ids, OnTimeId, 3);
    CheckStrength(list, deadline, today, 4);
    assert !FirstMatch(ids, CompletedArtifactId, 0) && !FirstMatch(ids, OnTimeId, 0);
    assert !FirstMatch(ids, CompletedArtifactId, 1) && !FirstMatch(ids, OnTimeId, 1);
    assert !FirstMatch(ids, CompletedArtifactId, 3);
  }

  /**
   * `saveButtonTapped`'s unlocks after appending: first_step when the list
   * now holds exactly one artifact, collector when it holds exactly three.
   */
  function CreationUnlocks(list: seq<Achievement>, count: nat): (r: seq<Achievement>)
    ensures |r| == |list| && AchievementIds(r) == AchievementIds(list)
    ensures forall j :: 0 <= j < |list| && list[j].isUnlocked ==> r[j].isUnlocked
    ensures forall j :: 0 <= j < |list| ==> r[j] == list[j].(isUnlocked := r[j].isUnlocked)
  {
    if count == 1 then UnlockFirst(list, FirstStepId)
    else if count == 3 then UnlockFirst(list, CollectorId)
    else list
  }

  lemma CreationUnlocksFirstStep(list: seq<Achievement>, count: nat, k: int)
    requires FirstMatch(AchievementIds(list), FirstStepId, k)
    ensures CreationUnlocks(list, count)[k].isUnlocked <==> list[k].isUnlocked || count == 1
  {
  }

  /** Collector needs exactly three artifacts: a fourth one does not unlock it. */
  lemma CreationUnlocksCollector(list: seq<Achievement>, count: nat, k: int)
    requires FirstMatch(AchievementIds(list), CollectorId, k)
    ensures CreationUnlocks(list, count)[k].isUnlocked <==> list[k].isUnlocked || count == 3
  {
  }

  /** Only the entry the count names can change. */
  lemma CreationUnlocksOthersUnchanged(list: seq<Achievement>, count: nat, j: int)
    requires 0 <= j < |list|
    requires !(count == 1 && FirstMatch(AchievementIds(list), FirstStepId, j))
    requires !(count == 3 && FirstMatch(AchievementIds(list), CollectorId, j))
    ensures CreationUnlocks(list, count)[j] == list[j]
  {
  }
}
