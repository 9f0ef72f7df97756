/**
 * The normalisation rules the proxy applies to raw Jira values before they
 * reach the dashboard: story points, status and priority categories, issue
 * type names, squad health and readable squad names.
 */
module Normalize {
  import opened Wrappers
  import opened Strings
  import opened JiraTypes

  datatype Status = Done | InProgress | InReview | ToDo
  datatype Priority = High | Medium | Low
  datatype Health = Green | Yellow | Red

  function StatusName(s: Status): string {
    match s
    case Done => "Done"
    case InProgress => "In Progress"
    case InReview => "In Review"
    case ToDo => "To Do"
  }

  function PriorityName(p: Priority): string {
    match p
    case High => "High"
    case Medium => "Medium"
    case Low => "Low"
  }

  function HealthName(h: Health): string {
    match h
    case Green => "green"
    case Yellow => "yellow"
    case Red => "red"
  }

  // ---------------------------------------------------------------------
  // Story points

  /** JavaScript truthiness of an optional number: present and non-zero. */
  predicate Truthy(v: Option<nat>) { v.Some? && v.value != 0 }

  /** Candidate `i` holds `r` and is the first truthy one. */
  predicate FirstTruthyAt(candidates: seq<Option<nat>>, i: nat, r: nat) {
    i < |candidates| && candidates[i] == Some(r) &&
    forall j :: 0 <= j < i ==> !Truthy(candidates[j])
  }

  /** `a || b || ... || 0` over optional numbers. */
  function FirstTruthy(candidates: seq<Option<nat>>): (r: nat)
    ensures r == 0 <==> forall i :: 0 <= i < |candidates| ==> !Truthy(candidates[i])
    ensures r != 0 ==> exists i: nat :: FirstTruthyAt(candidates, i, r)
    decreases |candidates|
  {
    if candidates == [] then 0
    else if Truthy(candidates[0]) then
      assert FirstTruthyAt(candidates, 0, candidates[0].value);
      candidates[0].value
    else
      var r := FirstTruthy(candidates[1..]);
      assert r != 0 ==> exists i: nat :: FirstTruthyAt(candidates, i, r) by {
        if r != 0 {
          var k: nat :| FirstTruthyAt(candidates[1..], k, r);
          assert FirstTruthyAt(candidates, k + 1, r) by {
            forall j | 0 <= j < k + 1 ensures !Truthy(candidates[j]) {
              if j > 0 { assert candidates[j] == candidates[1..][j - 1]; }
            }
          }
        }
      }
      r
  }

  /** The story-point fields in the order the proxy tries them. */
  function StoryPointFields(f: IssueFields): seq<Option<nat>> {
    [f.storyPointsField, f.customfield10028, f.customfield10016]
  }

  /** `getStoryPoints`: the first truthy story-point field, else 0. */
  function GetStoryPoints(issue: Issue): nat {
    FirstTruthy(StoryPointFields(issue.fields))
  }

  /** A zero in an earlier field falls through to the next field. */
  lemma StoryPointsFallThrough(issue: Issue)
    ensures var f := issue.fields;
      GetStoryPoints(issue) ==
        if Truthy(f.storyPointsField) then f.storyPointsField.value
        else if Truthy(f.customfield10028) then f.customfield10028.value
        else if Truthy(f.customfield10016) then f.customfield10016.value
        else 0
  {
    var cs := StoryPointFields(issue.fields);
    var rest1: seq<Option<nat>> := cs[1..];
    var rest2: seq<Option<nat>> := rest1[1..];
    assert rest1 == [cs[1], cs[2]] && rest2 == [cs[2]] && rest2[1..] == [];
  }

  // ---------------------------------------------------------------------
  // Status

  predicate ContainsAny(s: string, keywords: seq<string>) {
    exists j | 0 <= j < |keywords| :: Contains(s, keywords[j])
  }

  /** `name?.toLowerCase() || ''`. */
  function LowerOrEmpty(name: Option<string>): string {
    match name
    case None => ""
    case Some(s) => ToLower(s)
  }

  const DoneKeywords: seq<string> :=
    ["done", "closed", "resolved", "concluído", "concluida", "finalizado", "completo"]
  /** In-progress keywords that apply whatever else the name says. */
  const ActiveKeywords: seq<string> :=
    ["em andamento", "em desenvolvimento", "fazendo", "doing", "working", "desenvolvimento", "coding"]
  /** In-progress keywords that do not apply when the name says "pendente". */
  const GuardedActiveKeywords: seq<string> := ["progress", "dev"]
  const ReviewKeywords: seq<string> :=
    ["review", "revisão", "revisao", "em revisão", "em revisao", "qa", "test", "homologação", "homologacao"]

  predicate IsActiveText(lower: string) {
    ContainsAny(lower, ActiveKeywords) ||
    (ContainsAny(lower, GuardedActiveKeywords) && !Contains(lower, "pendente"))
  }

  /** `mapStatus`: Done, then In Progress, then In Review, else To Do. */
  function MapStatus(statusName: Option<string>): Status {
    var lower := LowerOrEmpty(statusName);
    if ContainsAny(lower, DoneKeywords) then Done
    else if IsActiveText(lower) then InProgress
    else if ContainsAny(lower, ReviewKeywords) then InReview
    else ToDo
  }

  /** A missing or empty status name is To Do. */
  lemma MapStatusOfNothing()
    ensures MapStatus(None) == ToDo && MapStatus(Some("")) == ToDo
  {
  }

  /** The category depends on the name only up to letter case. */
  lemma MapStatusIgnoresCase(a: string, b: string)
    requires ToLower(a) == ToLower(b)
    ensures MapStatus(Some(a)) == MapStatus(Some(b))
  {
  }

  /**
   * Rule precedence: a Done keyword decides the category whatever else the
   * name contains, and an in-progress keyword beats every review keyword.
   */
  lemma MapStatusPrecedence(name: string, kw: string)
    ensures kw in DoneKeywords && Contains(ToLower(name), kw) ==> MapStatus(Some(name)) == Done
    ensures kw in ActiveKeywords && Contains(ToLower(name), kw) ==>
      MapStatus(Some(name)) in {Done, InProgress}
    ensures MapStatus(Some(name)) == InReview ==> !IsActiveText(ToLower(name))
  {
  }

  // ---------------------------------------------------------------------
  // Priority

  const HighKeywords: seq<string> := ["high", "critical", "blocker"]
  const LowKeywords: seq<string> := ["low", "trivial"]

  /** `mapPriority`: High keywords before Low keywords, else Medium. */
  function MapPriority(priorityName: Option<string>): Priority {
    var lower := LowerOrEmpty(priorityName);
    if ContainsAny(lower, HighKeywords) then High
    else if ContainsAny(lower, LowKeywords) then Low
    else Medium
  }

  /** A missing or empty priority name is Medium. */
  lemma MapPriorityOfNothing()
    ensures MapPriority(None) == Medium && MapPriority(Some("")) == Medium
  {
  }

  /** Any priority name containing "blocker", in any case, is High. */
  lemma BlockerIsHigh(name: string)
    requires Contains(ToLower(name), "blocker")
    ensures MapPriority(Some(name)) == High
  {
    assert HighKeywords[2] == "blocker";
  }

  // ---------------------------------------------------------------------
  // Issue type

  /** `getOriginalIssueType`: the trimmed name, or "Unknown" for a blank one. */
  function OriginalIssueType(typeName: Option<string>): (r: string)
    ensures typeName.None? || AllSpace(typeName.value) ==> r == "Unknown"
    ensures typeName.Some? && !AllSpace(typeName.value) ==> r == Trim(typeName.value)
    ensures r != [] && !IsSpace(r[0]) && !IsSpace(r[|r| - 1])
  {
    match typeName
    case None => "Unknown"
    case Some(s) =>
      TrimEmptyIffAllSpace(s);
      TrimEnds(s);
      if s == [] || |Trim(s)| == 0 then "Unknown" else Trim(s)
  }

  // ---------------------------------------------------------------------
  // Health

  /** `determineHealth`, with its rules taken in the source's order. */
  function DetermineHealth(completionPct: int, blockers: nat, hasIssues: bool): (h: Health)
    ensures h == Green <==> hasIssues && blockers == 0 && completionPct >= 70
    ensures h == Red <==> hasIssues && (blockers >= 2 || completionPct < 40)
    ensures !hasIssues ==> h == Yellow
  {
    if !hasIssues then Yellow
    else if blockers >= 3 then Red
    else if completionPct >= 70 && blockers == 0 then Green
    else if completionPct < 40 || blockers >= 2 then Red
    else Yellow
  }

  /** Cases from the test suite, and the blocker rule beating the completion rule. */
  lemma DetermineHealthCases()
    ensures DetermineHealth(80, 0, true) == Green && DetermineHealth(100, 0, true) == Green
    ensures DetermineHealth(30, 0, true) == Red && DetermineHealth(30, 1, true) == Red
    ensures DetermineHealth(70, 3, true) == Red && DetermineHealth(80, 5, true) == Red
    ensures DetermineHealth(60, 0, true) == Yellow && DetermineHealth(70, 1, true) == Yellow
    ensures DetermineHealth(100, 3, true) == Red && DetermineHealth(100, 0, false) == Yellow
  {
  }

  // ---------------------------------------------------------------------
  // Squad names

  const Qualifiers: seq<string> := ["quadro", "board", "squad"]

  /** `t` starts with qualifier `w` (any case) followed by whitespace. */
  predicate LeadingQualifier(t: string, w: string) {
    |w| < |t| && ToLower(t[..|w|]) == w && IsSpace(t[|w|])
  }

  /** `t` ends with whitespace followed by qualifier `w` (any case). */
  predicate TrailingQualifier(t: string, w: string) {
    |w| < |t| && ToLower(t[|t| - |w|..]) == w && IsSpace(t[|t| - |w| - 1])
  }

  /** `t.replace(/^(quadro|board|squad)\s+/i, '')`. */
  function StripLeadingQualifier(t: string): string {
    if LeadingQualifier(t, "quadro") then TrimStart(t[6..])
    else if LeadingQualifier(t, "board") then TrimStart(t[5..])
    else if LeadingQualifier(t, "squad") then TrimStart(t[5..])
    else t
  }

  /** `t.replace(/\s+(quadro|board|squad)$/i, '')`. */
  function StripTrailingQualifier(t: string): string {
    if TrailingQualifier(t, "quadro") then TrimEnd(t[..|t| - 6])
    else if TrailingQualifier(t, "board") then TrimEnd(t[..|t| - 5])
    else if TrailingQualifier(t, "squad") then TrimEnd(t[..|t| - 5])
    else t
  }

  /** The board-key abbreviations and the squad names they stand for. */
  const KeyMappings: map<string, string> := map[
    "CONT" := "Squad de Content",
    "GWT" := "Squad de Growth",
    "CHN" := "Squad de Channel",
    "SCC" := "Squad CW Cast/CW Class",
    "EM" := "Equipe de Marketing",
    "CDM" := "Campanhas de Marketing",
    "GH" := "Growth Hacking",
    "IM" := "Inbound Marketing",
    "CRON" := "Cronograma do Marketing",
    "FDP" := "Feedback de Produto",
    "FDI" := "Forno de Ideias",
    "LDC" := "Lideranças do CEO",
    "DEV" := "Time de Produto da CW",
    "AO" := "Agile Onboarding",
    "AC" := "Atividades Comerciais",
    "BLOG" := "Blog",
    "CHAP" := "Chapters",
    "CRI" := "Criação"
  ]

  /** The longest prefix of `s` made of lower-case letters. */
  function LeadingLowers(s: string): (r: string)
    ensures |r| <= |s| && r == s[..|r|]
    ensures |r| < |s| ==> !IsLowerLetter(s[|r|])
    decreases |s|
  {
    if s != [] && IsLowerLetter(s[0]) then [s[0]] + LeadingLowers(s[1..]) else []
  }

  /** `r` matches `[a-z]+\s+[A-Z]` at its start. */
  predicate LowerWordThenCapital(r: string) {
    var l := LeadingLowers(r);
    0 < |l| < |r| && IsSpace(r[|l|]) &&
    var u := TrimStart(r[|l|..]);
    u != [] && IsUpperLetter(u[0])
  }

  /** `t` matches `^(Squad|Equipe|Time)\s+[a-z]+\s+[A-Z]` (case-sensitive). */
  predicate LooksFormatted(t: string) {
    exists w | w in ["Squad", "Equipe", "Time"] ::
      |w| < |t| && t[..|w|] == w && IsSpace(t[|w|]) && LowerWordThenCapital(TrimStart(t[|w|..]))
  }

  /** `c` matches `^[A-Z]{2,5}$`. */
  predicate IsShortCode(c: string) {
    2 <= |c| <= 5 && forall i :: 0 <= i < |c| ==> IsUpperLetter(c[i])
  }

  /** No whitespace at either end of `s`. */
  predicate Tidy(s: string) {
    s == [] || (!IsSpace(s[0]) && !IsSpace(s[|s| - 1]))
  }

  /** The name with at most one leading and one trailing qualifier removed. */
  function CleanName(trimmed: string): string {
    Trim(StripTrailingQualifier(StripLeadingQualifier(trimmed)))
  }

  /** The last four rules: table lookup, already formatted, short code, fallback. */
  function ExpandName(trimmed: string, cleaned: string): string {
    var upper := ToUpper(cleaned);
    if upper in KeyMappings then KeyMappings[upper] else ExpandUnlisted(trimmed, cleaned)
  }

  /** The rules that apply when the cleaned name is not in the table. */
  function ExpandUnlisted(trimmed: string, cleaned: string): string {
    if LooksFormatted(trimmed) then trimmed
    else if IsShortCode(cleaned) then "Squad " + cleaned
    else if cleaned != [] then cleaned
    else trimmed
  }

  /** `formatSquadName`. */
  function FormatSquadName(boardName: string): string {
    if boardName == [] then "Unknown Squad"
    else
      var trimmed := Trim(boardName);
      ExpandName(trimmed, CleanName(trimmed))
  }

  /**
   * The readable name is empty exactly for a non-empty, whitespace-only board
   * name, and it never starts or ends with whitespace.
   */
  lemma FormatSquadNameShape(boardName: string)
    ensures var r := FormatSquadName(boardName);
      (r == [] <==> boardName != [] && AllSpace(boardName)) && Tidy(r)
  {
    if boardName != [] {
      var trimmed := Trim(boardName);
      TrimEnds(boardName);
      TrimEmptyIffAllSpace(boardName);
      CleanNameShape(trimmed);
      ExpandNameShape(trimmed, CleanName(trimmed));
    }
  }

  /** Cleaning a tidy name gives a tidy name, empty only when the name is. */
  lemma CleanNameShape(trimmed: string)
    requires Tidy(trimmed)
    ensures Tidy(CleanName(trimmed)) && (CleanName(trimmed) == [] <==> trimmed == [])
  {
    CleanedNonEmpty(trimmed);
    TrimEnds(StripTrailingQualifier(StripLeadingQualifier(trimmed)));
  }

  lemma ExpandNameShape(trimmed: string, cleaned: string)
    requires Tidy(trimmed) && Tidy(cleaned)
    requires cleaned == [] <==> trimmed == []
    ensures var r := ExpandName(trimmed, cleaned); Tidy(r) && (r == [] <==> trimmed == [])
  {
    if ToUpper(cleaned) in KeyMappings {
      KeyMappingsTrimmed(ToUpper(cleaned));
    } else {
      ExpandUnlistedShape(trimmed, cleaned);
    }
  }

  lemma ExpandUnlistedShape(trimmed: string, cleaned: string)
    requires Tidy(trimmed) && Tidy(cleaned)
    requires cleaned == [] <==> trimmed == []
    ensures var r := ExpandUnlisted(trimmed, cleaned); Tidy(r) && (r == [] <==> trimmed == [])
  {
    if !LooksFormatted(trimmed) && IsShortCode(cleaned) {
      PrefixedTidy("Squad ", cleaned);
    }
  }

  /** A non-empty tidy name behind a prefix that starts with no space is tidy. */
  lemma PrefixedTidy(prefix: string, s: string)
    requires prefix != [] && !IsSpace(prefix[0]) && s != [] && Tidy(s)
    ensures prefix + s != [] && Tidy(prefix + s)
  {
    assert (prefix + s)[|prefix + s| - 1] == s[|s| - 1];
  }

  /** Every expansion in the table is non-empty and has no outer whitespace. */
  lemma KeyMappingsTrimmed(k: string)
    requires k in KeyMappings
    ensures KeyMappings[k] != [] && Tidy(KeyMappings[k])
  {
  }

  /** Stripping qualifiers from a non-empty trimmed name never empties it. */
  lemma CleanedNonEmpty(trimmed: string)
    requires trimmed != [] ==> !IsSpace(trimmed[0]) && !IsSpace(trimmed[|trimmed| - 1])
    ensures trimmed != [] ==> CleanName(trimmed) != []
  {
    if trimmed != [] {
      var a := StripLeadingQualifier(trimmed);
      LeadingStripKeepsTidy(trimmed);
      var b := StripTrailingQualifier(a);
      TrailingStripKeepsFirst(a);
      TrimStartIdle(b);
      assert Trim(b) == TrimEnd(b);
      assert TrimEnd(b)[0] == b[0];
    }
  }

  lemma LeadingStripKeepsTidy(t: string)
    requires t != [] && !IsSpace(t[0]) && !IsSpace(t[|t| - 1])
    ensures var a := StripLeadingQualifier(t); a != [] && !IsSpace(a[0]) && !IsSpace(a[|a| - 1])
  {
    if LeadingQualifier(t, "quadro") {
      TrimStartOfTail(t, 6);
    } else if LeadingQualifier(t, "board") || LeadingQualifier(t, "squad") {
      TrimStartOfTail(t, 5);
    }
  }

  lemma TrimStartOfTail(t: string, n: nat)
    requires n < |t| && !IsSpace(t[|t| - 1])
    ensures var a := TrimStart(t[n..]); a != [] && !IsSpace(a[0]) && !IsSpace(a[|a| - 1])
  {
    TrimStartKeepsLast(t[n..]);
  }

  lemma TrailingStripKeepsFirst(a: string)
    requires a != [] && !IsSpace(a[0])
    ensures var b := StripTrailingQualifier(a); b != [] && !IsSpace(b[0])
  {
    if TrailingQualifier(a, "quadro") {
      TrimEndKeepsFirst(a[..|a| - 6]);
    } else if TrailingQualifier(a, "board") || TrailingQualifier(a, "squad") {
      TrimEndKeepsFirst(a[..|a| - 5]);
    }
  }

  lemma TrimStartKeepsLast(s: string)
    requires s != [] && !IsSpace(s[|s| - 1])
    ensures var r := TrimStart(s); r != [] && !IsSpace(r[0]) && r[|r| - 1] == s[|s| - 1]
  {
    var r := TrimStart(s);
    // The whitespace cut cannot reach the last character, so something is left.
    assert !AllSpace(s[..|s|]) by { assert s[..|s|][|s| - 1] == s[|s| - 1]; }
    assert r[|r| - 1] == s[|s| - |r|..][|r| - 1];
  }

  lemma TrimEndKeepsFirst(s: string)
    requires s != [] && !IsSpace(s[0])
    ensures var r := TrimEnd(s); r != [] && r[0] == s[0]
  {
  }

  lemma TrimStartIdle(s: string)
    requires s != [] && !IsSpace(s[0])
    ensures TrimStart(s) == s
  {
  }

  lemma TrimEndIdle(s: string)
    requires s != [] && !IsSpace(s[|s| - 1])
    ensures TrimEnd(s) == s
  {
  }
}
