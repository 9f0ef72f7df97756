/**
 * Concrete names on which the serverless function's rules are decided, and
 * one on which its status rule and the proxy's disagree. Each negative fact
 * names a character of the keyword that does not occur in the name.
 */
module LegacyCases {
  import opened Wrappers
  import opened Strings
  import opened Normalize
  import opened NormalizeCases
  import opened LegacyRules

  /**
   * "Pendente" does not hold back an in-progress keyword here: a pending
   * development status is In Progress for this function and To Do for the proxy.
   */
  lemma PendingDevDiffers()
    ensures LegacyRules.MapStatus(Some("dev pendente")) == InProgress
    ensures Normalize.MapStatus(Some("dev pendente")) == ToDo
  {
    var lower := "dev pendente";
    assert ToLower("dev pendente") == lower;
    ContainsAt(lower, "dev", 0);
    assert LegacyActiveKeywords[1] == "dev";
    NotContains(lower, "done", 1);
    NotContains(lower, "closed", 0);
    NotContains(lower, "resolved", 0);
    StatusOfDevPendente();
  }

  /** A story is a feature. */
  lemma StoryIsFeature()
    ensures MapIssueType(Some("Story")) == Feature
  {
    var lower := "story";
    assert ToLower("Story") == lower;
    var all := BugKeywords + ImprovementKeywords + TechDebtKeywords;
    assert all == ["bug", "improvement", "enhancement", "tech", "debt", "task"];
    NotContains(lower, "bug", 0);
    NotContains(lower, "improvement", 0);
    NotContains(lower, "enhancement", 0);
    NotContains(lower, "tech", 1);
    NotContains(lower, "debt", 0);
    NotContains(lower, "task", 1);
  }

  /** A sub-task counts as technical debt. */
  lemma SubTaskIsTechDebt()
    ensures MapIssueType(Some("Sub-task")) == TechDebt
  {
    var lower := "sub-task";
    assert ToLower("Sub-task") == lower;
    NotContains(lower, "bug", 2);
    NotContains(lower, "improvement", 0);
    NotContains(lower, "enhancement", 0);
    assert lower[4..8] == "task";
    ContainsAt(lower, "task", 4);
    assert TechDebtKeywords[2] == "task";
  }

  /** A bug that is also an improvement is a bug: the bug rule comes first. */
  lemma BugImprovementIsBug()
    ensures MapIssueType(Some("Bug Improvement")) == Bug
  {
    assert ToLower("Bug Improvement") == "bug improvement";
    ContainsAt("bug improvement", "bug", 0);
  }

  /** A QA status is In Review; a missing status is To Do. */
  lemma ReviewAndMissing()
    ensures LegacyRules.MapStatus(Some("QA")) == InReview
    ensures LegacyRules.MapStatus(None) == ToDo
  {
    var lower := "qa";
    assert ToLower("QA") == lower;
    NotContains(lower, "done", 0);
    NotContains(lower, "closed", 0);
    NotContains(lower, "resolved", 0);
    NotContains(lower, "progress", 0);
    NotContains(lower, "dev", 0);
    NotContains(lower, "coding", 0);
    ContainsAt(lower, "qa", 0);
    assert LegacyReviewKeywords[1] == "qa";
  }
}
