/**
 * The older rule set of the serverless `jira-data` function: its status,
 * issue-type and health rules, which differ from the proxy's. Its priority
 * and story-point rules are the proxy's (`Normalize.MapPriority`,
 * `Normalize.GetStoryPoints`) word for word and are not repeated here.
 */
module LegacyRules {
  import opened Wrappers
  import opened Strings
  import opened Normalize

  const LegacyDoneKeywords: seq<string> := ["done", "closed", "resolved"]
  const LegacyActiveKeywords: seq<string> := ["progress", "dev", "coding"]
  const LegacyReviewKeywords: seq<string> := ["review", "qa", "test"]

  /** `mapStatus`: Done, then In Progress, then In Review, else To Do; English keywords only. */
  function MapStatus(statusName: Option<string>): (s: Status)
    ensures ContainsAny(LowerOrEmpty(statusName), LegacyDoneKeywords) <==> s == Done
    ensures s == InProgress <==>
      !ContainsAny(LowerOrEmpty(statusName), LegacyDoneKeywords) &&
      ContainsAny(LowerOrEmpty(statusName), LegacyActiveKeywords)
    ensures s == ToDo <==>
      !ContainsAny(LowerOrEmpty(statusName), LegacyDoneKeywords + LegacyActiveKeywords + LegacyReviewKeywords)
  {
    var lower := LowerOrEmpty(statusName);
    AnyOfConcat(lower, LegacyDoneKeywords, LegacyActiveKeywords);
    AnyOfConcat(lower, LegacyDoneKeywords + LegacyActiveKeywords, LegacyReviewKeywords);
    if ContainsAny(lower, LegacyDoneKeywords) then Done
    else if ContainsAny(lower, LegacyActiveKeywords) then InProgress
    else if ContainsAny(lower, LegacyReviewKeywords) then InReview
    else ToDo
  }

  lemma AnyOfConcat(s: string, a: seq<string>, b: seq<string>)
    ensures ContainsAny(s, a + b) <==> ContainsAny(s, a) || ContainsAny(s, b)
  {
    if ContainsAny(s, a + b) {
      var j :| 0 <= j < |a + b| && Contains(s, (a + b)[j]);
      if j >= |a| {
        assert b[j - |a|] == (a + b)[j];
      }
    }
    if ContainsAny(s, a) {
      var j :| 0 <= j < |a| && Contains(s, a[j]);
      assert (a + b)[j] == a[j];
    }
    if ContainsAny(s, b) {
      var j :| 0 <= j < |b| && Contains(s, b[j]);
      assert (a + b)[|a| + j] == b[j];
    }
  }

  const BugKeywords: seq<string> := ["bug"]
  const ImprovementKeywords: seq<string> := ["improvement", "enhancement"]
  const TechDebtKeywords: seq<string> := ["tech", "debt", "task"]

  /** The four categories of the serverless function's issue types. */
  datatype IssueCategory = Bug | Improvement | TechDebt | Feature

  function CategoryName(c: IssueCategory): string {
    match c
    case Bug => "Bug"
    case Improvement => "Improvement"
    case TechDebt => "Tech Debt"
    case Feature => "Feature"
  }

  /** `mapIssueType`: bug, then improvement, then technical debt; anything else is a feature. */
  function MapIssueType(typeName: Option<string>): (c: IssueCategory)
    ensures c == Bug <==> Contains(LowerOrEmpty(typeName), "bug")
    ensures c == Improvement <==>
      !Contains(LowerOrEmpty(typeName), "bug") && ContainsAny(LowerOrEmpty(typeName), ImprovementKeywords)
    ensures c == Feature <==>
      !ContainsAny(LowerOrEmpty(typeName), BugKeywords + ImprovementKeywords + TechDebtKeywords)
  {
    var lower := LowerOrEmpty(typeName);
    AnyOfConcat(lower, BugKeywords, ImprovementKeywords);
    AnyOfConcat(lower, BugKeywords + ImprovementKeywords, TechDebtKeywords);
    assert ContainsAny(lower, BugKeywords) <==> Contains(lower, "bug") by {
      assert BugKeywords[0] == "bug";
    }
    if Contains(lower, "bug") then Bug
    else if ContainsAny(lower, ImprovementKeywords) then Improvement
    else if ContainsAny(lower, TechDebtKeywords) then TechDebt
    else Feature
  }

  /** `determineHealth`: green from 80% with no blocker, red under 50% or from three blockers. */
  function DetermineHealth(completionPct: int, blockers: nat): (h: Health)
    ensures h == Green <==> completionPct >= 80 && blockers == 0
    ensures h == Red <==> (completionPct < 80 || blockers > 0) && (completionPct < 50 || blockers >= 3)
  {
    if completionPct >= 80 && blockers == 0 then Green
    else if completionPct < 50 || blockers >= 3 then Red
    else Yellow
  }

  /** Where the two health rules part: the proxy is greener at 70-79% and redder at two blockers. */
  lemma HealthRulesDiffer()
    ensures DetermineHealth(75, 0) == Yellow && Normalize.DetermineHealth(75, 0, true) == Green
    ensures DetermineHealth(60, 2) == Yellow && Normalize.DetermineHealth(60, 2, true) == Red
    ensures DetermineHealth(45, 0) == Red && Normalize.DetermineHealth(45, 0, true) == Yellow
  {
  }
}
