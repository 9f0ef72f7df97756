/**
 * The serverless function's request handler: it lists the boards, takes
 * each board's active sprint, folds every board's issues into a squad
 * record, task rows, an alert and a per-person distribution, and answers
 * with the dashboard or with a 500 carrying the error's message.
 */
module LegacyHandler {
  import opened Wrappers
  import Lists
  import opened Strings
  import opened JiraTypes
  import opened DashboardTypes
  import opened Normalize
  import opened SquadFold
  import opened LegacyPaging
  import LR = LegacyRules
  import Agg = Aggregator

  // ---------------------------------------------------------------------
  // Configuration

  /** The three Jira settings read from the environment, each possibly unset. */
  datatype Credentials = Credentials(domain: Option<string>, email: Option<string>, apiToken: Option<string>)

  predicate IsSet(v: Option<string>) {
    v.Some? && v.value != ""
  }

  predicate Configured(c: Credentials) {
    IsSet(c.domain) && IsSet(c.email) && IsSet(c.apiToken)
  }

  /** The domain with a leading `https://` or `http://` removed. */
  function CleanDomain(domain: string): (r: string)
    ensures !("http://" <= domain) && !("https://" <= domain) ==> r == domain
    ensures "https://" <= domain ==> r == domain[8..]
    ensures "http://" <= domain ==> r == domain[7..]
  {
    if "https://" <= domain then
      assert !("http://" <= domain) by {
        assert domain[4] == 's';
      }
      domain[8..]
    else if "http://" <= domain then domain[7..]
    else domain
  }

  /** Only one scheme prefix is removed. */
  lemma CleanDomainOnce(d: string)
    ensures CleanDomain("https://" + d) == d
    ensures CleanDomain("http://" + d) == d
  {
    assert ("https://" + d)[8..] == d;
    assert ("http://" + d)[7..] == d;
    assert !("https://" <= "http://" + d) by {
      assert ("http://" + d)[4] == ':';
    }
  }

  // ---------------------------------------------------------------------
  // What Jira answers

  /** The server's answers: one page list or answer per listing request. */
  datatype LegacyRemote = LegacyRemote(
    boardPages: seq<LegacyAnswer<Board>>,
    activeSprint: int -> Result<seq<Sprint>, FetchError>,
    sprintIssuePages: (int, int) -> seq<LegacyAnswer<Issue>>,
    boardIssuePages: int -> seq<LegacyAnswer<Issue>>)

  /** `getActiveSprint`: the first sprint listed, or null on an empty list or any error. */
  function ActiveSprintOf(answer: Result<seq<Sprint>, FetchError>): (r: Option<Sprint>)
    ensures r.Some? <==> answer.Ok? && |answer.value| > 0
    ensures r.Some? ==> r.value == answer.value[0]
  {
    if answer.Ok? && |answer.value| > 0 then Some(answer.value[0]) else None
  }

  /** Every board with its active sprint, in board order. */
  function ConfigsOf(remote: LegacyRemote, boards: seq<Board>): (r: seq<Agg.BoardConfig>)
    ensures |r| == |boards|
    ensures forall i | 0 <= i < |boards| ::
      r[i] == Agg.BoardConfig(boards[i], ActiveSprintOf(remote.activeSprint(boards[i].id)))
  {
    Lists.Map(boards, (b: Board) => BoardConfigOf(remote, b))
  }

  function BoardConfigOf(remote: LegacyRemote, b: Board): Agg.BoardConfig {
    Agg.BoardConfig(b, ActiveSprintOf(remote.activeSprint(b.id)))
  }

  /** The loop over the boards that pairs each with its sprint and keeps the first sprint found. */
  method FindSprints(remote: LegacyRemote, boards: seq<Board>) returns (configs: seq<Agg.BoardConfig>, global: Option<Sprint>)
    ensures configs == ConfigsOf(remote, boards)
    ensures global == Agg.FirstSprint(configs)
  {
    configs := [];
    global := None;
    for i := 0 to |boards|
      invariant configs == ConfigsOf(remote, boards[..i])
      invariant global == Agg.FirstSprint(configs)
    {
      var sprint := ActiveSprintOf(remote.activeSprint(boards[i].id));
      FirstSprintAppend(configs, Agg.BoardConfig(boards[i], sprint));
      Lists.MapStep(boards, i, (b: Board) => BoardConfigOf(remote, b));
      configs := configs + [Agg.BoardConfig(boards[i], sprint)];
      if sprint.Some? && global.None? {
        global := sprint;
      }
    }
    assert boards[..|boards|] == boards;
  }

  /** Appending a board keeps an earlier sprint and otherwise takes the new one. */
  lemma {:induction false} FirstSprintAppend(configs: seq<Agg.BoardConfig>, c: Agg.BoardConfig)
    ensures Agg.FirstSprint(configs + [c]) ==
      if Agg.FirstSprint(configs).Some? then Agg.FirstSprint(configs) else c.sprint
    decreases |configs|
  {
    if configs == [] {
      assert ([] + [c])[1..] == [];
    } else {
      assert (configs + [c])[0] == configs[0];
      assert (configs + [c])[1..] == configs[1..] + [c];
      FirstSprintAppend(configs[1..], c);
    }
  }

  // ---------------------------------------------------------------------
  // The combined goal

  /** `[<board name>] <goal>` for every board whose sprint has a goal, in board order. */
  function GoalEntries(configs: seq<Agg.BoardConfig>): (r: seq<string>)
    ensures forall k | 0 <= k < |r| :: r[k] != [] && r[k][0] == '['
    ensures r == [] <==> forall i | 0 <= i < |configs| :: !Agg.HasGoal(configs[i])
    decreases |configs|
  {
    if configs == [] then []
    else
      var init := GoalEntries(configs[..|configs| - 1]);
      var c := configs[|configs| - 1];
      assert forall i | 0 <= i < |configs| - 1 :: configs[..|configs| - 1][i] == configs[i];
      if Agg.HasGoal(c) then init + ["[" + c.board.name + "] " + c.sprint.value.goal.value] else init
  }

  /** The distinct goal entries, joined. */
  function CombinedGoal(configs: seq<Agg.BoardConfig>): string {
    Join(Distinct(GoalEntries(configs)), Agg.GoalSeparator)
  }

  /** The combined goal is empty exactly when no active sprint has a goal. */
  lemma CombinedGoalEmpty(configs: seq<Agg.BoardConfig>)
    ensures CombinedGoal(configs) == "" <==> forall i | 0 <= i < |configs| :: !Agg.HasGoal(configs[i])
  {
    var d := Distinct(GoalEntries(configs));
    if GoalEntries(configs) != [] {
      assert GoalEntries(configs)[0] in d;
      Agg.JoinStartsWithFirst(d, Agg.GoalSeparator);
      assert d[0] in GoalEntries(configs);
    }
  }

  // ---------------------------------------------------------------------
  // One board's issues

  /**
   * The issues of a board: its sprint's issues, or without a sprint the
   * board's open and recent issues. `None` when the sprint's issues could
   * not be fetched: the board is then skipped.
   */
  function BoardIssues(remote: LegacyRemote, config: Agg.BoardConfig): (r: Option<seq<Issue>>)
    ensures r.None? <==>
      config.sprint.Some? &&
      Fetch(SprintIssues, remote.sprintIssuePages(config.board.id, config.sprint.value.id)).Err?
  {
    match config.sprint
    case Some(s) =>
      var fetched := Fetch(SprintIssues, remote.sprintIssuePages(config.board.id, s.id));
      if fetched.Ok? then Some(fetched.value) else None
    case None =>
      PartialListingsNeverThrow(KanbanIssues, remote.boardIssuePages(config.board.id));
      Some(Fetch(KanbanIssues, remote.boardIssuePages(config.board.id)).value)
  }

  function StatusOfIssue(issue: Issue): Status {
    LR.MapStatus(issue.fields.status)
  }

  /** Story points by status: Done, In Progress, and everything else (In Review too) as to do. */
  function PointBuckets(status: Status, sp: nat): (b: Buckets)
    ensures b.Sum() == sp
  {
    match status
    case Done => Buckets(sp, 0, 0)
    case InProgress => Buckets(0, sp, 0)
    case InReview => Buckets(0, 0, sp)
    case ToDo => Buckets(0, 0, sp)
  }

  /** A blocker priority or a flag, whatever the status. */
  predicate CountsAsBlocker(issue: Issue) {
    Contains(LowerOrEmpty(issue.fields.priority), "blocker") || issue.fields.flaggedTrue
  }

  /** What one issue adds to the squad's counters and the priority totals. */
  function PointTally(issue: Issue): Tally {
    var sp := GetStoryPoints(issue);
    var status := StatusOfIssue(issue);
    var priority := MapPriority(issue.fields.priority);
    Tally(
      sp,
      if status == Done then sp else 0,
      PointBuckets(status, sp),
      if CountsAsBlocker(issue) then 1 else 0,
      if priority == High then sp else 0,
      if priority == Medium then sp else 0,
      if priority == Low then sp else 0)
  }

  function PointTallyOf(issues: seq<Issue>): Tally
    decreases |issues|
  {
    if issues == [] then NoTally
    else PointTallyOf(issues[..|issues| - 1]).Plus(PointTally(issues[|issues| - 1]))
  }

  function DoneSum(issues: seq<Issue>): nat
    decreases |issues|
  {
    if issues == [] then 0
    else
      var last := issues[|issues| - 1];
      DoneSum(issues[..|issues| - 1]) + if StatusOfIssue(last) == Done then GetStoryPoints(last) else 0
  }

  function BlockerCount(issues: seq<Issue>): nat
    decreases |issues|
  {
    if issues == [] then 0
    else BlockerCount(issues[..|issues| - 1]) + if CountsAsBlocker(issues[|issues| - 1]) then 1 else 0
  }

  /** The squad's points are the sums over its issues and over its Done issues; every blocker counts. */
  lemma {:induction false} PointTallySums(issues: seq<Issue>)
    ensures PointTallyOf(issues).total == SumPoints(issues)
    ensures PointTallyOf(issues).completed == DoneSum(issues)
    ensures PointTallyOf(issues).blockers == BlockerCount(issues)
    decreases |issues|
  {
    if issues != [] {
      PointTallySums(issues[..|issues| - 1]);
    }
  }

  /**
   * The buckets hold story points: together they are the squad's total, the
   * done bucket is its completed points, and completed never exceeds total.
   */
  lemma {:induction false} PointBucketsCoverTotal(issues: seq<Issue>)
    ensures PointTallyOf(issues).buckets.Sum() == PointTallyOf(issues).total
    ensures PointTallyOf(issues).buckets.done == PointTallyOf(issues).completed
    ensures PointTallyOf(issues).completed <= PointTallyOf(issues).total
    decreases |issues|
  {
    if issues != [] {
      PointBucketsCoverTotal(issues[..|issues| - 1]);
    }
  }

  /** The three priority sums make up the total. */
  lemma {:induction false} PointPrioritiesCoverTotal(issues: seq<Issue>)
    ensures PointTallyOf(issues).high + PointTallyOf(issues).medium + PointTallyOf(issues).low ==
      PointTallyOf(issues).total
    decreases |issues|
  {
    if issues != [] {
      PointPrioritiesCoverTotal(issues[..|issues| - 1]);
    }
  }

  /**
   * Two departures from the proxy's fold: a finished blocker still counts,
   * and reviewed work counts as to do (the proxy: not a blocker, in progress).
   */
  lemma FoldsDiffer(issue: Issue)
    requires issue.fields.flaggedTrue && GetStoryPoints(issue) > 0
    ensures StatusOfIssue(issue) == Done && SquadFold.StatusOf(issue) == Done ==>
      PointTally(issue).blockers == 1 && IssueTally(issue).blockers == 0
    ensures StatusOfIssue(issue) == InReview && SquadFold.StatusOf(issue) == InReview ==>
      PointTally(issue).buckets.inProgress == 0 && IssueTally(issue).buckets.inProgress > 0
  {
  }

  /** The per-person entries after the issues, in order. */
  function PointPersonsOf(issues: seq<Issue>): seq<PersonEntry>
    decreases |issues|
  {
    if issues == [] then []
    else
      var last := issues[|issues| - 1];
      AddToPerson(PointPersonsOf(issues[..|issues| - 1]), AssigneeOf(last),
                  PointBuckets(StatusOfIssue(last), GetStoryPoints(last)))
  }

  /** What one issue adds to its assignee's entry: its story points, by status. */
  function PointUnits(issue: Issue): Buckets {
    PointBuckets(StatusOfIssue(issue), GetStoryPoints(issue))
  }

  /** The serverless fold is the per-person fold by `PointUnits`. */
  lemma {:induction false} PointPersonsOfBy(issues: seq<Issue>)
    ensures PointPersonsOf(issues) == PersonsBy(issues, PointUnits)
    decreases |issues|
  {
    if issues != [] {
      PointPersonsOfBy(issues[..|issues| - 1]);
    }
  }

  /** One entry per assignee; the entries add up to the squad's distribution. */
  lemma {:induction false} PointPersonsSum(issues: seq<Issue>)
    ensures SumEntries(PointPersonsOf(issues)) == PointTallyOf(issues).buckets
    ensures NoDuplicates(Names(PointPersonsOf(issues)))
    ensures Names(PointPersonsOf(issues)) == Distinct(Lists.Map(issues, AssigneeOf))
    ensures forall i | 0 <= i < |issues| :: AssigneeOf(issues[i]) in Names(PointPersonsOf(issues))
    ensures OwnSums(PointPersonsOf(issues), issues, PointUnits)
    ensures forall k | 0 <= k < |PointPersonsOf(issues)| ::
      PointPersonsOf(issues)[k].buckets == SumBy(AssignedTo(issues, PointPersonsOf(issues)[k].name), PointUnits)
    decreases |issues|
  {
    PointPersonsOfBy(issues);
    PersonsByNames(issues, PointUnits);
    PersonsByOwnIssues(issues, PointUnits);
    assert forall i | 0 <= i < |issues| :: Lists.Map(issues, AssigneeOf)[i] == AssigneeOf(issues[i]);
    var p := PointPersonsOf(issues);
    forall k | 0 <= k < |p| ensures p[k].buckets == SumBy(AssignedTo(issues, p[k].name), PointUnits) {
      EntryOfAt(p, k);
      NameAt(p, k);
    }
    if issues != [] {
      var init := issues[..|issues| - 1];
      var last := issues[|issues| - 1];
      var b := PointBuckets(StatusOfIssue(last), GetStoryPoints(last));
      PointPersonsSum(init);
      AddToPersonSum(PointPersonsOf(init), AssigneeOf(last), b);
      AddToPersonDistinct(PointPersonsOf(init), AssigneeOf(last), b);
    }
  }

  /** A task row of the serverless dashboard; it has no sprint column. */
  datatype LegacyTask = LegacyTask(
    id: string,
    key: string,
    summary: string,
    squad: string,
    assignee: string,
    status: string,
    priority: string,
    storyPoints: nat,
    kind: string)

  function TaskOf(boardName: string, issue: Issue): LegacyTask {
    LegacyTask(
      issue.id,
      issue.key,
      issue.fields.summary.GetOr(""),
      boardName,
      AssigneeOf(issue),
      StatusName(StatusOfIssue(issue)),
      PriorityName(MapPriority(issue.fields.priority)),
      GetStoryPoints(issue),
      LR.CategoryName(LR.MapIssueType(issue.fields.issueType)))
  }

  /** One task row per issue, in issue order. */
  function TasksOf(boardName: string, issues: seq<Issue>): (r: seq<LegacyTask>)
    ensures |r| == |issues|
    ensures forall i | 0 <= i < |issues| :: r[i] == TaskOf(boardName, issues[i])
  {
    Lists.Map(issues, (issue: Issue) => TaskOf(boardName, issue))
  }

  lemma FoldStep(issues: seq<Issue>, i: nat)
    requires i < |issues|
    ensures PointTallyOf(issues[..i + 1]) == PointTallyOf(issues[..i]).Plus(PointTally(issues[i]))
    ensures PointPersonsOf(issues[..i + 1]) ==
      AddToPerson(PointPersonsOf(issues[..i]), AssigneeOf(issues[i]),
                  PointBuckets(StatusOfIssue(issues[i]), GetStoryPoints(issues[i])))
  {
    assert issues[..i + 1][..i] == issues[..i];
  }

  /** The loop over a board's issues. */
  method FoldIssues(boardName: string, issues: seq<Issue>)
    returns (tally: Tally, persons: seq<PersonEntry>, tasks: seq<LegacyTask>)
    ensures tally == PointTallyOf(issues)
    ensures persons == PointPersonsOf(issues)
    ensures tasks == TasksOf(boardName, issues)
  {
    tally := NoTally;
    persons := [];
    tasks := [];
    for i := 0 to |issues|
      invariant tally == PointTallyOf(issues[..i])
      invariant persons == PointPersonsOf(issues[..i])
      invariant tasks == TasksOf(boardName, issues[..i])
    {
      var issue := issues[i];
      FoldStep(issues, i);
      Lists.MapStep(issues, i, (issue: Issue) => TaskOf(boardName, issue));
      tally := tally.Plus(PointTally(issue));
      persons := AddToPerson(persons, AssigneeOf(issue), PointBuckets(StatusOfIssue(issue), GetStoryPoints(issue)));
      tasks := tasks + [TaskOf(boardName, issue)];
    }
    assert issues[..|issues|] == issues;
  }

  // ---------------------------------------------------------------------
  // Squad records and alerts

  /** `round(completed / total * 100)`, or 0 when the squad has no points. */
  function Completion(t: Tally): (r: nat)
    requires t.completed <= t.total
    ensures r <= 100
    ensures t.total == 0 ==> r == 0
    ensures t.total > 0 && t.completed == t.total ==> r == 100
  {
    if t.total > 0 then RoundPct(t.completed, t.total) else 0
  }

  /** The fields of a serverless squad record the model keeps. */
  datatype LegacySquad = LegacySquad(
    id: string,
    name: string,
    health: Health,
    completed: nat,
    total: nat,
    completionPercentage: nat,
    velocity: nat,
    avgVelocity: nat,
    taskDistribution: Buckets,
    blockers: nat,
    predictability: nat,
    cycleTime: nat,
    goal: string)

  /** `sprint?.goal || ''`. */
  function GoalOf(sprint: Option<Sprint>): string {
    if sprint.Some? && sprint.value.goal.Some? then sprint.value.goal.value else ""
  }

  function SquadOf(config: Agg.BoardConfig, issues: seq<Issue>): (s: LegacySquad)
    ensures s.id == SquadId(config.board) && s.name == config.board.name
    ensures s.total == SumPoints(issues) && s.completed == DoneSum(issues)
    ensures s.taskDistribution.Sum() == s.total && s.taskDistribution.done == s.completed
    ensures s.blockers == BlockerCount(issues)
    ensures s.completionPercentage <= 100 && (s.total == 0 ==> s.completionPercentage == 0)
    ensures s.health == LR.DetermineHealth(s.completionPercentage, s.blockers)
    ensures s.goal == GoalOf(config.sprint)
  {
    var t := PointTallyOf(issues);
    PointTallySums(issues);
    PointBucketsCoverTotal(issues);
    var pct := Completion(t);
    LegacySquad(
      SquadId(config.board),
      config.board.name,
      LR.DetermineHealth(pct, t.blockers),
      t.completed,
      t.total,
      pct,
      t.total,
      t.total,
      t.buckets,
      t.blockers,
      85,
      0,
      GoalOf(config.sprint))
  }

  /** A squad with blockers raises one alert, critical from three blockers on. */
  function AlertOf(board: Board, issues: seq<Issue>): (a: Option<Alert>)
    ensures a.Some? <==> BlockerCount(issues) > 0
    ensures a.Some? ==> (a.value.kind == Critical <==> BlockerCount(issues) >= 3)
    ensures a.Some? ==>
      a.value.storyPointsAffected == PointTallyOf(issues).total - DoneSum(issues)
    ensures a.Some? ==> a.value.squad == board.name && a.value.id == "alert-" + SquadId(board)
  {
    var t := PointTallyOf(issues);
    PointTallySums(issues);
    PointBucketsCoverTotal(issues);
    if t.blockers > 0 then
      var affected := t.buckets.todo + t.buckets.inProgress;
      Some(Alert(
        "alert-" + SquadId(board),
        if t.blockers >= 3 then Critical else Warning,
        board.name,
        IntToString(t.blockers) + " blocker(s) affecting " + IntToString(affected) + " SP",
        affected))
    else None
  }

  // ---------------------------------------------------------------------
  // The fold over the boards

  datatype LegacyPart = LegacyPart(
    squad: LegacySquad,
    tasks: seq<LegacyTask>,
    alert: Option<Alert>,
    persons: seq<PersonEntry>,
    tally: Tally)

  function PartOf(config: Agg.BoardConfig, issues: seq<Issue>): LegacyPart {
    LegacyPart(
      SquadOf(config, issues),
      TasksOf(config.board.name, issues),
      AlertOf(config.board, issues),
      PointPersonsOf(issues),
      PointTallyOf(issues))
  }

  datatype LegacyTotals = LegacyTotals(
    squads: seq<LegacySquad>,
    tasks: seq<LegacyTask>,
    alerts: seq<Alert>,
    persons: map<string, seq<PersonEntry>>,
    totalSP: nat,
    completedSP: nat,
    priorities: Agg.PriorityStats)

  const NoLegacyTotals := LegacyTotals([], [], [], map[], 0, 0, Agg.PriorityStats(0, 0, 0))

  function AddPart(acc: LegacyTotals, squadId: string, p: LegacyPart): LegacyTotals {
    LegacyTotals(
      acc.squads + [p.squad],
      acc.tasks + p.tasks,
      acc.alerts + Agg.AlertSeq(p.alert),
      acc.persons[squadId := p.persons],
      acc.totalSP + p.tally.total,
      acc.completedSP + p.tally.completed,
      Agg.PriorityStats(acc.priorities.high + p.tally.high, acc.priorities.medium + p.tally.medium,
                        acc.priorities.low + p.tally.low))
  }

  /** The accumulators after the boards, in board order; a skipped board adds nothing. */
  function TotalsOf(remote: LegacyRemote, configs: seq<Agg.BoardConfig>): LegacyTotals
    decreases |configs|
  {
    if configs == [] then NoLegacyTotals
    else
      var acc := TotalsOf(remote, configs[..|configs| - 1]);
      var config := configs[|configs| - 1];
      match BoardIssues(remote, config)
      case None => acc
      case Some(issues) => AddPart(acc, SquadId(config.board), PartOf(config, issues))
  }

  lemma TotalsStep(remote: LegacyRemote, configs: seq<Agg.BoardConfig>, i: nat)
    requires i < |configs|
    ensures BoardIssues(remote, configs[i]).None? ==> TotalsOf(remote, configs[..i + 1]) == TotalsOf(remote, configs[..i])
    ensures BoardIssues(remote, configs[i]).Some? ==>
      TotalsOf(remote, configs[..i + 1]) ==
        AddPart(TotalsOf(remote, configs[..i]), SquadId(configs[i].board),
                PartOf(configs[i], BoardIssues(remote, configs[i]).value))
  {
    assert configs[..i + 1][..i] == configs[..i];
  }

  /** One board: fetch its issues, fold them, and build its part; `None` when the fetch threw. */
  method ProcessBoard(remote: LegacyRemote, config: Agg.BoardConfig) returns (p: Option<LegacyPart>)
    ensures BoardIssues(remote, config).None? ==> p.None?
    ensures BoardIssues(remote, config).Some? ==> p == Some(PartOf(config, BoardIssues(remote, config).value))
  {
    var issues: seq<Issue>;
    if config.sprint.Some? {
      var fetched, _ := FetchPages(SprintIssues, remote.sprintIssuePages(config.board.id, config.sprint.value.id));
      if fetched.Err? {
        return None;
      }
      issues := fetched.value;
    } else {
      var fetched, _ := FetchPages(KanbanIssues, remote.boardIssuePages(config.board.id));
      PartialListingsNeverThrow(KanbanIssues, remote.boardIssuePages(config.board.id));
      issues := fetched.value;
    }
    var tally, persons, tasks := FoldIssues(config.board.name, issues);
    p := Some(LegacyPart(SquadOf(config, issues), tasks, AlertOf(config.board, issues), persons, tally));
  }

  /** The loop over the boards. */
  method ProcessBoards(remote: LegacyRemote, configs: seq<Agg.BoardConfig>) returns (acc: LegacyTotals)
    ensures acc == TotalsOf(remote, configs)
  {
    acc := NoLegacyTotals;
    for i := 0 to |configs|
      invariant acc == TotalsOf(remote, configs[..i])
    {
      TotalsStep(remote, configs, i);
      var p := ProcessBoard(remote, configs[i]);
      if p.Some? {
        acc := AddPart(acc, SquadId(configs[i].board), p.value);
      }
    }
    assert configs[..|configs|] == configs;
  }

  function SumTotal(squads: seq<LegacySquad>): nat
    decreases |squads|
  {
    if squads == [] then 0 else SumTotal(squads[..|squads| - 1]) + squads[|squads| - 1].total
  }

  function SumCompleted(squads: seq<LegacySquad>): nat
    decreases |squads|
  {
    if squads == [] then 0 else SumCompleted(squads[..|squads| - 1]) + squads[|squads| - 1].completed
  }

  /** The sprint totals are the sums over the squads. */
  lemma {:induction false} TotalsAreSquadSums(remote: LegacyRemote, configs: seq<Agg.BoardConfig>)
    ensures TotalsOf(remote, configs).totalSP == SumTotal(TotalsOf(remote, configs).squads)
    ensures TotalsOf(remote, configs).completedSP == SumCompleted(TotalsOf(remote, configs).squads)
    decreases |configs|
  {
    if configs != [] {
      var init := configs[..|configs| - 1];
      TotalsAreSquadSums(remote, init);
      var config := configs[|configs| - 1];
      var issues := BoardIssues(remote, config);
      if issues.Some? {
        PartSums(config, issues.value);
        AddPartSums(TotalsOf(remote, init), SquadId(config.board), PartOf(config, issues.value));
      }
    }
  }

  /** The sprint's completed points never exceed its total. */
  lemma {:induction false} TotalsCompletedWithinTotal(remote: LegacyRemote, configs: seq<Agg.BoardConfig>)
    ensures TotalsOf(remote, configs).completedSP <= TotalsOf(remote, configs).totalSP
    decreases |configs|
  {
    if configs != [] {
      TotalsCompletedWithinTotal(remote, configs[..|configs| - 1]);
      var config := configs[|configs| - 1];
      var issues := BoardIssues(remote, config);
      if issues.Some? {
        PartSums(config, issues.value);
      }
    }
  }

  /** A board's squad record carries its tally's totals, completed within total. */
  lemma PartSums(config: Agg.BoardConfig, issues: seq<Issue>)
    ensures var p := PartOf(config, issues);
      p.squad.total == p.tally.total && p.squad.completed == p.tally.completed &&
      p.tally.completed <= p.tally.total
  {
    PointTallySums(issues);
    var s := SquadOf(config, issues);
    assert s.taskDistribution.done <= s.taskDistribution.Sum();
  }

  /** Adding a part whose squad carries its tally keeps the totals equal to the squad sums. */
  lemma AddPartSums(acc: LegacyTotals, squadId: string, p: LegacyPart)
    requires acc.totalSP == SumTotal(acc.squads) && acc.completedSP == SumCompleted(acc.squads)
    requires p.squad.total == p.tally.total && p.squad.completed == p.tally.completed
    ensures var r := AddPart(acc, squadId, p);
      r.totalSP == SumTotal(r.squads) && r.completedSP == SumCompleted(r.squads)
  {
    var r := AddPart(acc, squadId, p);
    assert r.squads[..|r.squads| - 1] == acc.squads;
  }

  /** The board-level priority totals make up the total story points. */
  lemma {:induction false} PrioritiesCoverTotal(remote: LegacyRemote, configs: seq<Agg.BoardConfig>)
    ensures var t := TotalsOf(remote, configs);
      t.priorities.high + t.priorities.medium + t.priorities.low == t.totalSP
    decreases |configs|
  {
    if configs != [] {
      PrioritiesCoverTotal(remote, configs[..|configs| - 1]);
      var issues := BoardIssues(remote, configs[|configs| - 1]);
      if issues.Some? {
        PointPrioritiesCoverTotal(issues.value);
      }
    }
  }

  /** Every board without an active sprint yields a squad: its fallback listing cannot fail. */
  lemma SprintlessBoardsAlwaysCount(remote: LegacyRemote, config: Agg.BoardConfig)
    requires config.sprint.None?
    ensures BoardIssues(remote, config).Some?
  {
  }

  // ---------------------------------------------------------------------
  // The handler

  const NotConfigured := "Jira credentials not configured"
  const NoBoards := "No boards found (Scrum or Kanban)"

  /** The dashboard the function answers with, as far as the model computes it. */
  datatype LegacyDashboard = LegacyDashboard(
    sprint: SprintInfo,
    squads: seq<LegacySquad>,
    alerts: seq<Alert>,
    personDistribution: map<string, seq<PersonEntry>>,
    tasks: seq<LegacyTask>)

  /** A 200 with the dashboard, or a 500 with `{ error: message }`. */
  datatype LegacyResponse = Served(data: LegacyDashboard) | Failed(status: int, error: string)

  function DashboardOf(remote: LegacyRemote, configs: seq<Agg.BoardConfig>, today: string): LegacyDashboard {
    var t := TotalsOf(remote, configs);
    LegacyDashboard(
      Agg.SprintInfoFor(Agg.FirstSprint(configs), CombinedGoal(configs), today, t.totalSP, t.completedSP),
      t.squads, t.alerts, t.persons, t.tasks)
  }

  /** The handler's answer to a GET. */
  function Handle(creds: Credentials, remote: LegacyRemote, today: string): LegacyResponse {
    if !Configured(creds) then Failed(500, NotConfigured)
    else
      var boards := Fetch(AllBoards, remote.boardPages);
      if boards.Err? then Failed(500, boards.error)
      else if |boards.value| == 0 then Failed(500, NoBoards)
      else Served(DashboardOf(remote, ConfigsOf(remote, boards.value), today))
  }

  method HandleRequest(creds: Credentials, remote: LegacyRemote, today: string) returns (r: LegacyResponse)
    ensures r == Handle(creds, remote, today)
  {
    if !Configured(creds) {
      return Failed(500, NotConfigured);
    }
    var boards, _ := FetchPages(AllBoards, remote.boardPages);
    if boards.Err? {
      return Failed(500, boards.error);
    }
    if |boards.value| == 0 {
      return Failed(500, NoBoards);
    }
    var configs, global := FindSprints(remote, boards.value);
    var totals := ProcessBoards(remote, configs);
    var info := Agg.SprintInfoFor(global, CombinedGoal(configs), today, totals.totalSP, totals.completedSP);
    return Served(LegacyDashboard(info, totals.squads, totals.alerts, totals.persons, totals.tasks));
  }

  /**
   * Every failure is a 500: missing settings, the board listing's error
   * message, or no boards at all. A dashboard is served only when the
   * settings are present and some board was listed.
   */
  lemma HandleOutcomes(creds: Credentials, remote: LegacyRemote, today: string)
    ensures Handle(creds, remote, today).Failed? ==> Handle(creds, remote, today).status == 500
    ensures Handle(creds, remote, today).Served? <==>
      Configured(creds) && Fetch(AllBoards, remote.boardPages).Ok? && |Fetch(AllBoards, remote.boardPages).value| > 0
    ensures !Configured(creds) ==> Handle(creds, remote, today) == Failed(500, NotConfigured)
  {
  }

  /** A served dashboard's sprint totals are the sums over its squads. */
  lemma ServedTotals(creds: Credentials, remote: LegacyRemote, today: string)
    requires Handle(creds, remote, today).Served?
    ensures var d := Handle(creds, remote, today).data;
      d.sprint.totalStoryPoints == SumTotal(d.squads) && d.sprint.completedStoryPoints == SumCompleted(d.squads) &&
      d.sprint.completedStoryPoints <= d.sprint.totalStoryPoints
  {
    var boards := Fetch(AllBoards, remote.boardPages).value;
    TotalsAreSquadSums(remote, ConfigsOf(remote, boards));
    TotalsCompletedWithinTotal(remote, ConfigsOf(remote, boards));
  }
}
