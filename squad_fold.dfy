/**
 * The per-board part of `aggregateSquadsData`: one pass over a sprint's
 * issues accumulating story points, the task distribution, blockers, the
 * per-person distribution and the story points per priority, followed by
 * the squad's completion, health and alert.
 */
module SquadFold {
  import opened Wrappers
  import Lists
  import opened Strings
  import opened JiraTypes
  import opened DashboardTypes
  import opened Normalize

  /** Work done / in progress / to do, in story points, an unestimated issue counting 1. */
  datatype Buckets = Buckets(done: nat, inProgress: nat, todo: nat) {
    function Sum(): nat { done + inProgress + todo }
    function Plus(o: Buckets): Buckets {
      Buckets(done + o.done, inProgress + o.inProgress, todo + o.todo)
    }
  }

  const NoBuckets := Buckets(0, 0, 0)

  /** The counters of one squad. High/medium/low are story points per mapped priority. */
  datatype Tally = Tally(
    total: nat,
    completed: nat,
    buckets: Buckets,
    blockers: nat,
    high: nat,
    medium: nat,
    low: nat)
  {
    function Plus(o: Tally): Tally {
      Tally(total + o.total, completed + o.completed, buckets.Plus(o.buckets),
            blockers + o.blockers, high + o.high, medium + o.medium, low + o.low)
    }
  }

  const NoTally := Tally(0, 0, NoBuckets, 0, 0, 0, 0)

  /** `sp > 0 ? sp : 1`. */
  function SpOrOne(sp: nat): (r: nat)
    ensures r >= 1 && (sp > 0 ==> r == sp)
  {
    if sp > 0 then sp else 1
  }

  /** `assignee?.displayName || 'Unassigned'`. */
  function AssigneeOf(issue: Issue): (r: string)
    ensures r != []
  {
    match issue.fields.assignee
    case Some(name) => if name != [] then name else "Unassigned"
    case None => "Unassigned"
  }

  function StatusOf(issue: Issue): Status {
    MapStatus(issue.fields.status)
  }

  /** Done counts as done, In Progress and In Review as in progress, the rest as to do. */
  function BucketsOf(status: Status, units: nat): (b: Buckets)
    ensures b.Sum() == units
  {
    match status
    case Done => Buckets(units, 0, 0)
    case InProgress => Buckets(0, units, 0)
    case InReview => Buckets(0, units, 0)
    case ToDo => Buckets(0, 0, units)
  }

  /**
   * A blocker is an issue that is not Done and whose priority name contains
   * "blocker" in any case, or that Jira flags.
   */
  predicate IsBlocker(issue: Issue) {
    (Contains(LowerOrEmpty(issue.fields.priority), "blocker") || issue.fields.flaggedTrue) &&
    StatusOf(issue) != Done
  }

  /** What one issue adds to the squad's counters. */
  function IssueTally(issue: Issue): Tally {
    var sp := GetStoryPoints(issue);
    var status := StatusOf(issue);
    var priority := MapPriority(issue.fields.priority);
    Tally(
      sp,
      if status == Done then sp else 0,
      BucketsOf(status, SpOrOne(sp)),
      if IsBlocker(issue) then 1 else 0,
      if priority == High then sp else 0,
      if priority == Medium then sp else 0,
      if priority == Low then sp else 0)
  }

  /** The counters after the issues, in order. */
  function TallyOf(issues: seq<Issue>): Tally
    decreases |issues|
  {
    if issues == [] then NoTally
    else TallyOf(issues[..|issues| - 1]).Plus(IssueTally(issues[|issues| - 1]))
  }

  // ---------------------------------------------------------------------
  // Reference sums

  function SumPoints(issues: seq<Issue>): nat
    decreases |issues|
  {
    if issues == [] then 0 else SumPoints(issues[..|issues| - 1]) + GetStoryPoints(issues[|issues| - 1])
  }

  function SumUnits(issues: seq<Issue>): nat
    decreases |issues|
  {
    if issues == [] then 0
    else SumUnits(issues[..|issues| - 1]) + SpOrOne(GetStoryPoints(issues[|issues| - 1]))
  }

  function DonePoints(issues: seq<Issue>): nat
    decreases |issues|
  {
    if issues == [] then 0
    else
      var last := issues[|issues| - 1];
      DonePoints(issues[..|issues| - 1]) + if StatusOf(last) == Done then GetStoryPoints(last) else 0
  }

  function CountBlockers(issues: seq<Issue>): nat
    decreases |issues|
  {
    if issues == [] then 0
    else CountBlockers(issues[..|issues| - 1]) + if IsBlocker(issues[|issues| - 1]) then 1 else 0
  }

  /**
   * The squad's story points are the sum over its issues, done work is the
   * sum over its Done issues, the three buckets together count every issue
   * (unestimated ones as 1), and the blocker count is the number of blockers.
   */
  lemma {:induction false} TallySums(issues: seq<Issue>)
    ensures TallyOf(issues).total == SumPoints(issues)
    ensures TallyOf(issues).completed == DonePoints(issues)
    ensures TallyOf(issues).buckets.Sum() == SumUnits(issues)
    ensures TallyOf(issues).blockers == CountBlockers(issues)
    decreases |issues|
  {
    if issues != [] {
      TallySums(issues[..|issues| - 1]);
    }
  }

  /** Since every priority maps to High, Medium or Low, the three priority sums make up the total. */
  lemma {:induction false} PrioritiesCoverTotal(issues: seq<Issue>)
    ensures TallyOf(issues).high + TallyOf(issues).medium + TallyOf(issues).low == TallyOf(issues).total
    decreases |issues|
  {
    if issues != [] {
      PrioritiesCoverTotal(issues[..|issues| - 1]);
    }
  }

  /** Completed points never exceed the total, nor done units the units. */
  lemma {:induction false} CompletedWithinTotal(issues: seq<Issue>)
    ensures TallyOf(issues).completed <= TallyOf(issues).total
    ensures TallyOf(issues).buckets.done <= TallyOf(issues).buckets.Sum()
    ensures TallyOf(issues).blockers <= |issues|
    decreases |issues|
  {
    if issues != [] {
      CompletedWithinTotal(issues[..|issues| - 1]);
    }
  }

  // ---------------------------------------------------------------------
  // Per-person distribution

  /** One entry of `Object.entries(personMap)`. */
  datatype PersonEntry = PersonEntry(name: string, buckets: Buckets)

  /** `personMap[name]`: the buckets of the first entry named `name`, if any. */
  function EntryOf(entries: seq<PersonEntry>, name: string): (r: Option<Buckets>)
    decreases |entries|
  {
    if entries == [] then None
    else if entries[0].name == name then Some(entries[0].buckets)
    else EntryOf(entries[1..], name)
  }

  /** A name has a person's entry exactly when it is listed. */
  lemma {:induction false} EntryOfListed(entries: seq<PersonEntry>, name: string)
    ensures EntryOf(entries, name).Some? <==> name in Names(entries)
    decreases |entries|
  {
    if entries != [] {
      EntryOfListed(entries[1..], name);
    }
  }

  /**
   * `personMap[name] += b`: the person's buckets gain `b`, starting from
   * zero for a new name, which enters at the end; every other person's
   * buckets stay as they were.
   */
  function AddToPerson(entries: seq<PersonEntry>, name: string, b: Buckets): (r: seq<PersonEntry>)
    ensures EntryOf(r, name) == Some(EntryOf(entries, name).GetOr(NoBuckets).Plus(b))
    ensures forall n {:trigger EntryOf(r, n)} | n != name :: EntryOf(r, n) == EntryOf(entries, n)
    decreases |entries|
  {
    if entries == [] then [PersonEntry(name, b)]
    else if entries[0].name == name then [PersonEntry(name, entries[0].buckets.Plus(b))] + entries[1..]
    else [entries[0]] + AddToPerson(entries[1..], name, b)
  }

  /** The per-person entries after the issues, in order. */
  function PersonsOf(issues: seq<Issue>): seq<PersonEntry>
    decreases |issues|
  {
    if issues == [] then []
    else
      var last := issues[|issues| - 1];
      AddToPerson(PersonsOf(issues[..|issues| - 1]), AssigneeOf(last),
                  BucketsOf(StatusOf(last), SpOrOne(GetStoryPoints(last))))
  }

  function SumEntries(entries: seq<PersonEntry>): Buckets
    decreases |entries|
  {
    if entries == [] then NoBuckets else entries[0].buckets.Plus(SumEntries(entries[1..]))
  }

  /** The names of the entries, in order. */
  function Names(entries: seq<PersonEntry>): (r: seq<string>)
    ensures |r| == |entries|
    decreases |entries|
  {
    if entries == [] then [] else [entries[0].name] + Names(entries[1..])
  }

  lemma {:induction false} AddToPersonSum(entries: seq<PersonEntry>, name: string, b: Buckets)
    ensures SumEntries(AddToPerson(entries, name, b)) == SumEntries(entries).Plus(b)
    decreases |entries|
  {
    if entries != [] && entries[0].name != name {
      AddToPersonSum(entries[1..], name, b);
      assert AddToPerson(entries, name, b)[1..] == AddToPerson(entries[1..], name, b);
    } else if entries != [] {
      assert AddToPerson(entries, name, b)[1..] == entries[1..];
    }
  }

  /** A known name keeps its place; a new one is appended. */
  lemma {:induction false} AddToPersonNames(entries: seq<PersonEntry>, name: string, b: Buckets)
    ensures Names(AddToPerson(entries, name, b)) ==
      if name in Names(entries) then Names(entries) else Names(entries) + [name]
    decreases |entries|
  {
    if entries != [] {
      var r := AddToPerson(entries, name, b);
      if entries[0].name != name {
        AddToPersonNames(entries[1..], name, b);
        assert r[1..] == AddToPerson(entries[1..], name, b);
        assert name in Names(entries) <==> name in Names(entries[1..]);
      } else {
        assert r[1..] == entries[1..];
      }
    }
  }

  /** The name list holds each entry's own name in its place. */
  lemma {:induction false} NameAt(entries: seq<PersonEntry>, k: nat)
    requires k < |entries|
    ensures Names(entries)[k] == entries[k].name
    decreases |entries|
  {
    if k > 0 {
      NameAt(entries[1..], k - 1);
    }
  }

  lemma AddToPersonDistinct(entries: seq<PersonEntry>, name: string, b: Buckets)
    requires NoDuplicates(Names(entries))
    ensures NoDuplicates(Names(AddToPerson(entries, name, b)))
  {
    AddToPersonNames(entries, name, b);
    if name !in Names(entries) {
      var s := Names(entries) + [name];
      forall i, j | 0 <= i < j < |s| ensures s[i] != s[j] {
        if j == |s| - 1 {
          assert s[i] == Names(entries)[i];
        } else {
          assert s[i] == Names(entries)[i] && s[j] == Names(entries)[j];
        }
      }
    }
  }

  /**
   * Each assignee has exactly one entry, and the per-person buckets add up
   * to the squad's task distribution.
   */
  lemma {:induction false} PersonsSumToSquad(issues: seq<Issue>)
    ensures SumEntries(PersonsOf(issues)) == TallyOf(issues).buckets
    ensures NoDuplicates(Names(PersonsOf(issues)))
    ensures Names(PersonsOf(issues)) == Distinct(Lists.Map(issues, AssigneeOf))
    ensures forall i | 0 <= i < |issues| :: AssigneeOf(issues[i]) in Names(PersonsOf(issues))
    ensures OwnSums(PersonsOf(issues), issues, IssueUnits)
    ensures forall k | 0 <= k < |PersonsOf(issues)| ::
      PersonsOf(issues)[k].buckets == SumBy(AssignedTo(issues, PersonsOf(issues)[k].name), IssueUnits)
    decreases |issues|
  {
    PersonsOfBy(issues);
    PersonsByNames(issues, IssueUnits);
    PersonsByOwnIssues(issues, IssueUnits);
    assert forall i | 0 <= i < |issues| :: Lists.Map(issues, AssigneeOf)[i] == AssigneeOf(issues[i]);
    var p := PersonsOf(issues);
    forall k | 0 <= k < |p| ensures p[k].buckets == SumBy(AssignedTo(issues, p[k].name), IssueUnits) {
      EntryOfAt(p, k);
      NameAt(p, k);
    }
    if issues != [] {
      var init := issues[..|issues| - 1];
      var last := issues[|issues| - 1];
      PersonsSumToSquad(init);
      AddToPersonSum(PersonsOf(init), AssigneeOf(last), BucketsOf(StatusOf(last), SpOrOne(GetStoryPoints(last))));
      AddToPersonDistinct(PersonsOf(init), AssigneeOf(last), BucketsOf(StatusOf(last), SpOrOne(GetStoryPoints(last))));
    }
  }

  /** What one issue adds to its assignee's entry in the proxy's fold. */
  function IssueUnits(issue: Issue): Buckets {
    BucketsOf(StatusOf(issue), SpOrOne(GetStoryPoints(issue)))
  }

  /** The per-person fold, for any measure `units` of an issue. */
  function PersonsBy(issues: seq<Issue>, units: Issue -> Buckets): seq<PersonEntry>
    decreases |issues|
  {
    if issues == [] then []
    else
      var last := issues[|issues| - 1];
      AddToPerson(PersonsBy(issues[..|issues| - 1], units), AssigneeOf(last), units(last))
  }

  /** `issues.filter(i => assignee(i) === name)`, in order. */
  function AssignedTo(issues: seq<Issue>, name: string): (r: seq<Issue>)
    ensures forall i | 0 <= i < |r| :: AssigneeOf(r[i]) == name
    decreases |issues|
  {
    if issues == [] then []
    else if AssigneeOf(issues[|issues| - 1]) == name
    then AssignedTo(issues[..|issues| - 1], name) + [issues[|issues| - 1]]
    else AssignedTo(issues[..|issues| - 1], name)
  }

  /** The units of the issues, added up. */
  function SumBy(issues: seq<Issue>, units: Issue -> Buckets): Buckets
    decreases |issues|
  {
    if issues == [] then NoBuckets
    else SumBy(issues[..|issues| - 1], units).Plus(units(issues[|issues| - 1]))
  }

  /** The issues assigned to a name are exactly those whose assignee is that name, in order. */
  lemma {:induction false} AssignedToIsFilter(issues: seq<Issue>, name: string)
    ensures AssignedTo(issues, name) == Lists.Filter(issues, (i: Issue) => AssigneeOf(i) == name)
    decreases |issues|
  {
    if issues != [] {
      AssignedToIsFilter(issues[..|issues| - 1], name);
    }
  }

  /** No issue is assigned to a name that none of them carries. */
  lemma {:induction false} AssignedToNone(issues: seq<Issue>, name: string)
    requires forall i | 0 <= i < |issues| :: AssigneeOf(issues[i]) != name
    ensures AssignedTo(issues, name) == []
    decreases |issues|
  {
    if issues != [] {
      AssignedToNone(issues[..|issues| - 1], name);
    }
  }

  /** The persons appear in the order their first issue does, each once. */
  lemma {:induction false} PersonsByNames(issues: seq<Issue>, units: Issue -> Buckets)
    ensures Names(PersonsBy(issues, units)) == Distinct(Lists.Map(issues, AssigneeOf))
    decreases |issues|
  {
    if issues != [] {
      var init := issues[..|issues| - 1];
      var last := issues[|issues| - 1];
      PersonsByNames(init, units);
      AddToPersonNames(PersonsBy(init, units), AssigneeOf(last), units(last));
      assert Lists.Map(issues, AssigneeOf)[..|issues| - 1] == Lists.Map(init, AssigneeOf);
    }
  }

  /** Every listed person's entry holds the units of exactly that person's issues. */
  predicate OwnSums(entries: seq<PersonEntry>, issues: seq<Issue>, units: Issue -> Buckets) {
    forall n | n in Names(entries) :: EntryOf(entries, n) == Some(SumBy(AssignedTo(issues, n), units))
  }

  /** Crediting one more issue to its assignee keeps every person's sum exact. */
  lemma AddToPersonOwnSums(entries: seq<PersonEntry>, init: seq<Issue>, last: Issue, units: Issue -> Buckets)
    requires OwnSums(entries, init, units)
    requires forall i | 0 <= i < |init| :: AssigneeOf(init[i]) in Names(entries)
    ensures OwnSums(AddToPerson(entries, AssigneeOf(last), units(last)), init + [last], units)
  {
    var a := AssigneeOf(last);
    var issues := init + [last];
    var r := AddToPerson(entries, a, units(last));
    assert issues[..|issues| - 1] == init;
    AddToPersonNames(entries, a, units(last));
    forall n | n in Names(r) ensures EntryOf(r, n) == Some(SumBy(AssignedTo(issues, n), units)) {
      if n == a {
        EntryOfListed(entries, a);
        if a !in Names(entries) {
          AssignedToNone(init, a);
        }
        assert (AssignedTo(init, a) + [last])[..|AssignedTo(init, a)|] == AssignedTo(init, a);
      } else {
        assert n in Names(entries);
      }
    }
  }

  /** With distinct names, the lookup of an entry's name finds that entry. */
  lemma {:induction false} EntryOfAt(entries: seq<PersonEntry>, k: nat)
    requires NoDuplicates(Names(entries))
    requires k < |entries|
    ensures EntryOf(entries, entries[k].name) == Some(entries[k].buckets)
    decreases |entries|
  {
    if k > 0 {
      NameAt(entries, k);
      assert Names(entries)[k] != Names(entries)[0];
      assert Names(entries)[1..] == Names(entries[1..]);
      EntryOfAt(entries[1..], k - 1);
    }
  }

  /** Each person's entry holds the units of exactly their own issues. */
  lemma {:induction false} PersonsByOwnIssues(issues: seq<Issue>, units: Issue -> Buckets)
    ensures OwnSums(PersonsBy(issues, units), issues, units)
    decreases |issues|
  {
    if issues != [] {
      var init := issues[..|issues| - 1];
      var last := issues[|issues| - 1];
      PersonsByOwnIssues(init, units);
      PersonsByListsAll(init, units);
      AddToPersonOwnSums(PersonsBy(init, units), init, last, units);
      assert init + [last] == issues;
    }
  }

  /** Every issue's assignee has an entry. */
  lemma PersonsByListsAll(issues: seq<Issue>, units: Issue -> Buckets)
    ensures forall i | 0 <= i < |issues| :: AssigneeOf(issues[i]) in Names(PersonsBy(issues, units))
  {
    PersonsByNames(issues, units);
    assert forall i | 0 <= i < |issues| :: Lists.Map(issues, AssigneeOf)[i] == AssigneeOf(issues[i]);
  }

  /** The proxy's fold is the per-person fold by `IssueUnits`. */
  lemma {:induction false} PersonsOfBy(issues: seq<Issue>)
    ensures PersonsOf(issues) == PersonsBy(issues, IssueUnits)
    decreases |issues|
  {
    if issues != [] {
      PersonsOfBy(issues[..|issues| - 1]);
    }
  }

  // ---------------------------------------------------------------------
  // Task rows

  /** The task row of one issue of the board's active sprint. */
  function TaskOf(squadName: string, sprintName: string, issue: Issue): TaskItem {
    TaskItem(
      issue.id,
      issue.key,
      issue.fields.summary.GetOr(""),
      squadName,
      AssigneeOf(issue),
      StatusName(StatusOf(issue)),
      PriorityName(MapPriority(issue.fields.priority)),
      GetStoryPoints(issue),
      OriginalIssueType(issue.fields.issueType),
      sprintName)
  }

  /** One task row per issue, in issue order. */
  function TasksOf(squadName: string, sprintName: string, issues: seq<Issue>): (r: seq<TaskItem>)
    ensures |r| == |issues|
    ensures forall i | 0 <= i < |issues| :: r[i] == TaskOf(squadName, sprintName, issues[i])
  {
    Lists.Map(issues, (issue: Issue) => TaskOf(squadName, sprintName, issue))
  }

  /** What the loop body adds to the counters and the person map for issue `i`. */
  lemma FoldStep(issues: seq<Issue>, i: nat)
    requires i < |issues|
    ensures TallyOf(issues[..i + 1]) == TallyOf(issues[..i]).Plus(IssueTally(issues[i]))
    ensures PersonsOf(issues[..i + 1]) ==
      AddToPerson(PersonsOf(issues[..i]), AssigneeOf(issues[i]),
                  BucketsOf(StatusOf(issues[i]), SpOrOne(GetStoryPoints(issues[i]))))
  {
    assert issues[..i + 1][..i] == issues[..i];
  }

  /**
   * The loop over a sprint's issues: the counters, the person map and the
   * task rows after it are those of the whole issue list.
   */
  method FoldIssues(squadName: string, sprintName: string, issues: seq<Issue>)
    returns (tally: Tally, persons: seq<PersonEntry>, tasks: seq<TaskItem>)
    ensures tally == TallyOf(issues)
    ensures persons == PersonsOf(issues)
    ensures tasks == TasksOf(squadName, sprintName, issues)
  {
    tally := NoTally;
    persons := [];
    tasks := [];
    for i := 0 to |issues|
      invariant tally == TallyOf(issues[..i])
      invariant persons == PersonsOf(issues[..i])
      invariant tasks == TasksOf(squadName, sprintName, issues[..i])
    {
      var issue := issues[i];
      var spOrOne := SpOrOne(GetStoryPoints(issue));
      FoldStep(issues, i);
      Lists.MapStep(issues, i, (issue: Issue) => TaskOf(squadName, sprintName, issue));
      tally := tally.Plus(IssueTally(issue));
      persons := AddToPerson(persons, AssigneeOf(issue), BucketsOf(StatusOf(issue), spOrOne));
      tasks := tasks + [TaskOf(squadName, sprintName, issue)];
    }
    assert issues[..|issues|] == issues;
  }

  // ---------------------------------------------------------------------
  // Squad metrics

  /** `n / d == q` when `q * d <= n < (q + 1) * d`. */
  lemma DivIs(n: nat, d: nat, q: nat)
    requires d > 0 && q * d <= n < q * d + d
    ensures n / d == q
  {
    var r := n / d;
    assert n == r * d + n % d;
    if r < q {
      MulLe(r + 1, q, d);
    } else if r > q {
      MulLe(q + 1, r, d);
    }
  }

  lemma MulLe(x: nat, y: nat, d: nat)
    requires x <= y
    ensures x * d <= y * d
  {
  }

  /** `n / d < m` when `n < m * d`. */
  lemma DivBelow(n: nat, d: nat, m: nat)
    requires d > 0 && n < m * d
    ensures n / d < m
  {
    var r := n / d;
    assert n == r * d + n % d;
    if r >= m {
      MulLe(m, r, d);
    }
  }

  /** `Math.round(100 * a / b)` for `b > 0`: `floor((200 * a + b) / (2 * b))`. */
  function RoundPct(a: nat, b: nat): (r: nat)
    requires b > 0
    ensures a <= b ==> r <= 100
    ensures a == 0 ==> r == 0
    ensures a == b ==> r == 100
  {
    var n := 200 * a + b;
    if a <= b then
      DivBelow(n, 2 * b, 101);
      if a == 0 then
        DivIs(n, 2 * b, 0);
        n / (2 * b)
      else if a == b then
        DivIs(n, 2 * b, 100);
        n / (2 * b)
      else
        n / (2 * b)
    else
      n / (2 * b)
  }

  /**
   * Completion by story points, or by task units when nothing is estimated,
   * or 0 for an empty sprint.
   */
  function CompletionPct(t: Tally): (r: nat)
    requires t.completed <= t.total && t.buckets.done <= t.buckets.Sum()
    ensures r <= 100
  {
    if t.total > 0 then RoundPct(t.completed, t.total)
    else if t.buckets.Sum() > 0 then RoundPct(t.buckets.done, t.buckets.Sum())
    else 0
  }

  /** The fields of a squad record the model keeps. */
  datatype SquadData = SquadData(
    id: string,
    name: string,
    health: Health,
    completed: nat,
    total: nat,
    completionPercentage: nat,
    velocity: nat,
    taskDistribution: Buckets,
    blockers: nat,
    predictability: nat,
    cycleTime: nat,
    goal: string)

  function SquadId(board: Board): string {
    "board-" + IntToString(board.id)
  }

  /** The squad record of a board whose sprint issues were fetched. */
  function SquadOf(board: Board, sprint: Sprint, issues: seq<Issue>): (s: SquadData)
    ensures s.id == SquadId(board) && s.name == FormatSquadName(board.name)
    ensures s.total == SumPoints(issues) && s.completed == DonePoints(issues)
    ensures s.taskDistribution == TallyOf(issues).buckets
    ensures s.blockers == CountBlockers(issues)
    ensures s.completionPercentage <= 100
    ensures s.health == DetermineHealth(s.completionPercentage, s.blockers, |issues| > 0)
  {
    var t := TallyOf(issues);
    TallySums(issues);
    CompletedWithinTotal(issues);
    var pct := CompletionPct(t);
    SquadData(
      SquadId(board),
      FormatSquadName(board.name),
      DetermineHealth(pct, t.blockers, |issues| > 0),
      t.completed,
      t.total,
      pct,
      t.total,
      t.buckets,
      t.blockers,
      85,
      0,
      sprint.goal.GetOr(""))
  }

  /** A squad with blockers raises one alert, critical from three blockers on. */
  function AlertOf(board: Board, issues: seq<Issue>): (a: Option<Alert>)
    ensures a.Some? <==> CountBlockers(issues) > 0
    ensures a.Some? ==> (a.value.kind == Critical <==> CountBlockers(issues) >= 3)
    ensures a.Some? ==>
      a.value.storyPointsAffected == TallyOf(issues).buckets.todo + TallyOf(issues).buckets.inProgress
    ensures a.Some? ==> a.value.squad == FormatSquadName(board.name) && a.value.id == "alert-" + SquadId(board)
  {
    var t := TallyOf(issues);
    TallySums(issues);
    if t.blockers > 0 then
      var affected := t.buckets.todo + t.buckets.inProgress;
      Some(Alert(
        "alert-" + SquadId(board),
        if t.blockers >= 3 then Critical else Warning,
        FormatSquadName(board.name),
        IntToString(t.blockers) + " blocker(s) affecting " + IntToString(affected) + " SP",
        affected))
    else None
  }
}
