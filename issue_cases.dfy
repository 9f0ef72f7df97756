/**
 * The concrete cases of the proxy's test suite for `getOriginalIssueType`
 * and `getStoryPoints`.
 */
module IssueCases {
  import opened Wrappers
  import opened Strings
  import opened JiraTypes
  import opened Normalize

  /** A type name with no whitespace at either end is kept as it is. */
  lemma TidyTypeKept(name: string)
    requires name != [] && !IsSpace(name[0]) && !IsSpace(name[|name| - 1])
    ensures OriginalIssueType(Some(name)) == name
  {
    TrimOfTrimmed(name);
  }

  /** A blank type name is "Unknown". */
  lemma BlankTypeUnknown(name: string)
    requires AllSpace(name)
    ensures OriginalIssueType(Some(name)) == "Unknown"
  {
  }

  // Bug, Story, Task and Epic are kept as they are.
  lemma BugKept() ensures OriginalIssueType(Some("Bug")) == "Bug" { TidyTypeKept("Bug"); }
  lemma StoryKept() ensures OriginalIssueType(Some("Story")) == "Story" { TidyTypeKept("Story"); }
  lemma TaskKept() ensures OriginalIssueType(Some("Task")) == "Task" { TidyTypeKept("Task"); }
  lemma EpicKept() ensures OriginalIssueType(Some("Epic")) == "Epic" { TidyTypeKept("Epic"); }

  /** The empty and a blank type name are "Unknown". */
  lemma EmptyAndBlankUnknown()
    ensures OriginalIssueType(Some("")) == "Unknown"
    ensures OriginalIssueType(Some("   ")) == "Unknown"
  {
    BlankTypeUnknown("");
    BlankTypeUnknown("   ");
  }

  /** The fields of the test issue, with the three story-point fields given. */
  function TestFields(storyPoints: Option<nat>, field10028: Option<nat>, field10016: Option<nat>): IssueFields {
    IssueFields(Some("Test"), Some("Done"), None, None, Some("Story"), "2024-01-01", None, false,
      storyPoints, field10028, field10016)
  }

  /** `story_points` is read first, `customfield_10028` next, and no field gives 0. */
  lemma StoryPointsCases()
    ensures GetStoryPoints(Issue("1", "TEST-1", TestFields(Some(5), None, None))) == 5
    ensures GetStoryPoints(Issue("1", "TEST-1", TestFields(None, Some(3), None))) == 3
    ensures GetStoryPoints(Issue("1", "TEST-1", TestFields(None, None, None))) == 0
  {
    StoryPointsFallThrough(Issue("1", "TEST-1", TestFields(Some(5), None, None)));
    StoryPointsFallThrough(Issue("1", "TEST-1", TestFields(None, Some(3), None)));
    StoryPointsFallThrough(Issue("1", "TEST-1", TestFields(None, None, None)));
  }
}
