/**
 * The goal ledger's value types: artifacts (savings goals), their
 * contributions, and the fixed achievement catalog
 * (PantheonGoals/Models/PantheonGoalsModels.swift).
 *
 * Amounts are exact reals (the app uses Double); dates are abstract day
 * numbers.
 */
module Models {
  import opened Wrappers

  /** A calendar day; two dates are "in the same day" when their Days are equal. */
  type Day = int

  datatype Contribution = Contribution(id: string, amount: real, date: Day, comment: Option<string>)

  datatype Artifact = Artifact(
    id: string,
    name: string,
    targetAmount: real,
    currentAmount: real,
    imageName: string,
    deadline: Option<Day>,
    contributions: seq<Contribution>,
    isCompleted: bool)

  datatype Achievement = Achievement(
    id: string,
    title: string,
    description: string,
    imageName: string,
    isUnlocked: bool)

  /** Total of the contribution amounts, summed from the front. */
  function Sum(cs: seq<Contribution>): real
  {
    if cs == [] then 0.0 else Sum(cs[..|cs| - 1]) + cs[|cs| - 1].amount
  }

  /** The ledger invariant: the current amount is what the surviving contributions add up to. */
  predicate AmountConsistent(a: Artifact)
  {
    a.currentAmount == Sum(a.contributions)
  }

  /** The completion invariant: an artifact is completed exactly when its target is reached. */
  predicate CompletionConsistent(a: Artifact)
  {
    a.isCompleted == (a.currentAmount >= a.targetAmount)
  }

  /**
   * `PantheonGoalsArtifact.init`: a fresh artifact with nothing saved yet.
   * The id (a UUID in the app) is a parameter.
   */
  function NewArtifact(id: string, name: string, targetAmount: real, imageName: string, deadline: Option<Day>): (a: Artifact)
    ensures a.id == id && a.name == name && a.imageName == imageName && a.deadline == deadline
    ensures a.targetAmount == targetAmount
    ensures a.currentAmount == 0.0 && a.contributions == [] && !a.isCompleted
    ensures AmountConsistent(a)
    // the initializer does not evaluate the completion rule: it only agrees
    // with it for a positive target
    ensures CompletionConsistent(a) <==> targetAmount > 0.0
  {
    Artifact(id, name, targetAmount, 0.0, imageName, deadline, [], false)
  }

  /** `PantheonGoalsContribution.init`: the date is the current day, passed in. */
  function NewContribution(id: string, amount: real, now: Day, comment: Option<string>): (c: Contribution)
    ensures c.id == id && c.amount == amount && c.comment == comment && c.date == now
  {
    Contribution(id, amount, now, comment)
  }

  /**
   * `progress`: the completed fraction of the target, capped at 1, and 0
   * for a target that is not positive.
   */
  function Progress(a: Artifact): (p: real)
    ensures a.targetAmount <= 0.0 ==> p == 0.0
    ensures p <= 1.0
    ensures 0.0 < a.targetAmount && a.currentAmount < a.targetAmount ==> p == a.currentAmount / a.targetAmount
    ensures 0.0 < a.targetAmount ==> (p == 1.0 <==> a.currentAmount >= a.targetAmount)
    ensures 0.0 <= a.currentAmount ==> 0.0 <= p
  {
    if a.targetAmount > 0.0 then
      var ratio := a.currentAmount / a.targetAmount;
      assert ratio >= 1.0 <==> a.currentAmount >= a.targetAmount by {
        assert a.currentAmount == ratio * a.targetAmount;
      }
      if ratio < 1.0 then ratio else 1.0
    else
      0.0
  }

  /** Progress reads as complete exactly when the completion flag of a consistent artifact is set. */
  lemma ProgressMatchesCompletion(a: Artifact)
    requires CompletionConsistent(a) && a.targetAmount > 0.0
    ensures Progress(a) == 1.0 <==> a.isCompleted
  {
  }

  const FirstStepId := "first_step"
  const CollectorId := "collector"
  const CompletedArtifactId := "completed_artifact"
  const OnTimeId := "on_time"
  const StrengthOfAthenaId := "strength_of_athena"

  /** The ids of the catalog, in catalog order. */
  const CatalogIds: seq<string> := [FirstStepId, CollectorId, CompletedArtifactId, OnTimeId, StrengthOfAthenaId]

  function AchievementIds(list: seq<Achievement>): (ids: seq<string>)
    ensures |ids| == |list| && forall i :: 0 <= i < |list| ==> ids[i] == list[i].id
  {
    seq(|list|, i requires 0 <= i < |list| => list[i].id)
  }

  function ArtifactIds(list: seq<Artifact>): (ids: seq<string>)
    ensures |ids| == |list| && forall i :: 0 <= i < |list| ==> ids[i] == list[i].id
  {
    seq(|list|, i requires 0 <= i < |list| => list[i].id)
  }

  predicate DistinctIds(ids: seq<string>)
  {
    forall i, j :: 0 <= i < j < |ids| ==> ids[i] != ids[j]
  }

  /** `PantheonGoalsAchievement.allAchievements`. */
  function AllAchievements(): (catalog: seq<Achievement>)
    ensures |catalog| == 5
    ensures AchievementIds(catalog) == CatalogIds
    ensures DistinctIds(CatalogIds)
    ensures forall i :: 0 <= i < |catalog| ==> !catalog[i].isUnlocked
  {
    assert CompletedArtifactId[0] != StrengthOfAthenaId[0];
    [ Achievement(FirstStepId, "First Step", "Create your first artifact", "rewardOne", false),
      Achievement(CollectorId, "Collector", "Have 3 active artifacts", "rewardTwo", false),
      Achievement(CompletedArtifactId, "Completed Artifact", "Reach a goal at least once", "rewardThree", false),
      Achievement(OnTimeId, "On Time", "Finish a goal exactly on its deadline", "rewardFour", false),
      Achievement(StrengthOfAthenaId, "Strength of Athena", "Reach all achievements", "rewardFive", false) ]
  }
}
