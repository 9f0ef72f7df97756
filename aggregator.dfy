/**
 * The orchestration of `data-aggregator.ts`: fetching the board
 * configurations through the cache, collecting the sprints of every board,
 * and folding the boards into the dashboard record. Every remote answer is
 * data in a `Remote` value; the fan-out over boards is a fold in board order.
 */
module Aggregator {
  import opened Wrappers
  import opened Strings
  import opened Sorting
  import opened JiraTypes
  import opened DashboardTypes
  import opened Normalize
  import opened TtlCache
  import opened JiraClient
  import opened SquadFold

  /** A board with its active sprint, `None` when it has none or the lookup failed. */
  datatype BoardConfig = BoardConfig(board: Board, sprint: Option<Sprint>)

  /** Assignees and issue types seen in one board's history. */
  datatype Metadata = Metadata(assignees: seq<string>, types: seq<string>)

  /** Story points per mapped priority over all squads. */
  datatype PriorityStats = PriorityStats(high: nat, medium: nat, low: nat)

  /** The parts of the dashboard record the model computes. */
  datatype DashboardData = DashboardData(
    sprint: SprintInfo,
    squads: seq<SquadData>,
    alerts: seq<Alert>,
    personDistribution: map<string, seq<PersonEntry>>,
    tasks: seq<TaskItem>,
    priorityStats: PriorityStats,
    availableSprints: seq<SprintInfo>,
    availableAssignees: seq<string>,
    availableIssueTypes: seq<string>)

  /** Everything the proxy keeps in its one cache, by kind. */
  datatype CachedValue =
    | ConfigsValue(configs: seq<BoardConfig>)
    | SprintsValue(sprints: seq<SprintInfo>)
    | MetadataValue(metadata: Metadata)
    | DashboardValue(data: DashboardData)

  /**
   * What Jira answers: the board listing, and per board the active-sprint
   * listing, the issues of a sprint, the sprint listing and the history.
   */
  datatype Remote = Remote(
    boards: Result<seq<Board>, HttpError>,
    activeSprints: int -> Result<seq<Sprint>, HttpError>,
    sprintIssues: (int, int) -> Result<seq<Issue>, HttpError>,
    sprints: int -> Result<seq<Sprint>, HttpError>,
    history: int -> Result<seq<Issue>, HttpError>)

  /** A Jira error passed on, or the "No boards found" error. */
  datatype Failure = Jira(error: HttpError) | NoBoards

  type DashboardCache = Cache<CachedValue>

  // ---------------------------------------------------------------------
  // fetchAllBoardsData

  const BoardsTtl := 120

  /** The cache key of the board configurations for the configured project keys. */
  function BoardsCacheKey(projectKeys: Option<seq<string>>): string {
    match projectKeys
    case None => "all-boards-config"
    case Some(keys) => "all-boards-config-" + Join(keys, ",")
  }

  /** The unfiltered key differs from every filtered one. */
  lemma UnfilteredKeyIsOwn(keys: seq<string>)
    ensures BoardsCacheKey(None) != BoardsCacheKey(Some(keys))
  {
    assert |BoardsCacheKey(None)| < |BoardsCacheKey(Some(keys))|;
  }

  /** Comma-free key lists (as configuration parsing yields) get distinct cache keys. */
  lemma {:induction false} FilteredKeysDistinct(a: seq<string>, b: seq<string>)
    requires |a| >= 1 && forall j :: 0 <= j < |a| ==> ',' !in a[j]
    requires |b| >= 1 && forall j :: 0 <= j < |b| ==> ',' !in b[j]
    requires BoardsCacheKey(Some(a)) == BoardsCacheKey(Some(b))
    ensures a == b
  {
    var p := "all-boards-config-";
    assert Join(a, ",") == BoardsCacheKey(Some(a))[|p|..];
    assert Join(b, ",") == BoardsCacheKey(Some(b))[|p|..];
    SplitJoin(a, ',');
    SplitJoin(b, ',');
  }

  /** A failed sprint lookup becomes `null`. */
  function SprintOrNull(answer: Result<seq<Sprint>, HttpError>): (r: Option<Sprint>)
    ensures r.None? <==> answer.Err? || answer.value == []
    ensures r.Some? ==> r.value == answer.value[0]
  {
    match ActiveSprint(answer)
    case Ok(sprint) => sprint
    case Err(_) => None
  }

  /** One configuration per board, in board order. */
  function ConfigsOf(remote: Remote, boards: seq<Board>): (r: seq<BoardConfig>)
    ensures |r| == |boards|
    ensures forall i | 0 <= i < |boards| ::
      r[i].board == boards[i] && r[i].sprint == SprintOrNull(remote.activeSprints(boards[i].id))
  {
    seq(|boards|, i requires 0 <= i < |boards| =>
      BoardConfig(boards[i], SprintOrNull(remote.activeSprints(boards[i].id))))
  }

  /** A listing error is passed on, zero boards is an error, otherwise one configuration per board. */
  function BoardsOutcome(remote: Remote): (r: Result<seq<BoardConfig>, Failure>)
    ensures remote.boards.Err? ==> r == Err(Jira(remote.boards.error))
    ensures remote.boards.Ok? ==> (r == Err(NoBoards) <==> remote.boards.value == [])
    ensures r.Ok? ==> remote.boards.Ok? && |r.value| == |remote.boards.value| > 0
  {
    match remote.boards
    case Err(e) => Err(Jira(e))
    case Ok(boards) => if boards == [] then Err(NoBoards) else Ok(ConfigsOf(remote, boards))
  }

  /** A cached board configuration list under `key`. */
  function CachedConfigs(store: Store<CachedValue>, key: string, now: int): Option<seq<BoardConfig>> {
    var v := Lookup(store, key, now);
    if v.Some? && v.value.ConfigsValue? then Some(v.value.configs) else None
  }

  /** What `fetchAllBoardsData` returns and leaves in the cache. */
  function BoardsRun(store: Store<CachedValue>, remote: Remote, projectKeys: Option<seq<string>>, now: int)
    : (Result<seq<BoardConfig>, Failure>, Store<CachedValue>)
  {
    var key := BoardsCacheKey(projectKeys);
    var hit := CachedConfigs(store, key, now);
    if hit.Some? then (Ok(hit.value), store)
    else
      var afterGet := AfterLookup(store, key, now);
      var r := BoardsOutcome(remote);
      if r.Ok? then (r, Put(afterGet, key, ConfigsValue(r.value), Some(BoardsTtl), now)) else (r, afterGet)
  }

  /**
   * A cached list is returned as it is and the cache is left unchanged;
   * otherwise the listing's outcome is returned, and cached for 120 seconds
   * when it is a list, which then is never empty; an empty listing is the
   * `NoBoards` failure and caches nothing.
   */
  lemma BoardsRunCases(store: Store<CachedValue>, remote: Remote, projectKeys: Option<seq<string>>, now: int)
    ensures var key := BoardsCacheKey(projectKeys);
      var (r, s) := BoardsRun(store, remote, projectKeys, now);
      var hit := CachedConfigs(store, key, now);
      (hit.Some? ==> r == Ok(hit.value) && s == store) &&
      (hit.None? && r.Ok? ==> |r.value| > 0 && s[key] == CacheEntry(ConfigsValue(r.value), now, Some(BoardsTtl))) &&
      (hit.None? && remote.boards == Ok([]) ==> r == Err(NoBoards) && CachedConfigs(s, key, now).None?)
  {
  }

  /** `fetchAllBoardsData`. */
  method FetchAllBoardsData(cache: DashboardCache, remote: Remote, projectKeys: Option<seq<string>>, now: int)
    returns (r: Result<seq<BoardConfig>, Failure>)
    modifies cache
    ensures (r, cache.store) == BoardsRun(old(cache.store), remote, projectKeys, now)
  {
    var key := BoardsCacheKey(projectKeys);
    var cached := cache.Get(key, now);
    if cached.Some? && cached.value.ConfigsValue? {
      return Ok(cached.value.configs);
    }
    if remote.boards.Err? {
      return Err(Jira(remote.boards.error));
    }
    var boards := remote.boards.value;
    if |boards| == 0 {
      return Err(NoBoards);
    }
    var configs := ConfigsOf(remote, boards);
    cache.Set(key, ConfigsValue(configs), Some(BoardsTtl), now);
    return Ok(configs);
  }

  // ---------------------------------------------------------------------
  // The global sprint and the combined goal

  /** The sprint of the first board that has one. */
  function FirstSprint(configs: seq<BoardConfig>): (r: Option<Sprint>)
    ensures r.None? <==> forall i | 0 <= i < |configs| :: configs[i].sprint.None?
    ensures r.Some? ==> exists i | 0 <= i < |configs| ::
      configs[i].sprint == r && forall j | 0 <= j < i :: configs[j].sprint.None?
    decreases |configs|
  {
    if configs == [] then None
    else if configs[0].sprint.Some? then configs[0].sprint
    else
      var r := FirstSprint(configs[1..]);
      assert forall i | 1 <= i < |configs| :: configs[1..][i - 1] == configs[i];
      r
  }

  /** The loop that finds the global sprint, stopping at the first board with a sprint. */
  method FindGlobalSprint(configs: seq<BoardConfig>) returns (g: Option<Sprint>)
    ensures g == FirstSprint(configs)
  {
    g := None;
    var i := 0;
    while i < |configs|
      invariant 0 <= i <= |configs|
      invariant FirstSprint(configs[i..]) == FirstSprint(configs)
      decreases |configs| - i
    {
      if configs[i].sprint.Some? {
        g := configs[i].sprint;
        return;
      }
      assert configs[i..][1..] == configs[i + 1..];
      i := i + 1;
    }
  }

  /** The board's active sprint has a non-empty goal. */
  predicate HasGoal(config: BoardConfig) {
    config.sprint.Some? && config.sprint.value.goal.Some? && config.sprint.value.goal.value != ""
  }

  /** `[<squad name>] <goal>` for every board whose sprint has a goal, in board order. */
  function GoalEntries(configs: seq<BoardConfig>): (r: seq<string>)
    ensures forall k | 0 <= k < |r| :: r[k] != [] && r[k][0] == '['
    ensures r == [] <==> forall i | 0 <= i < |configs| :: !HasGoal(configs[i])
    decreases |configs|
  {
    if configs == [] then []
    else
      var rest := GoalEntries(configs[1..]);
      assert forall i | 1 <= i < |configs| :: configs[1..][i - 1] == configs[i];
      if HasGoal(configs[0]) then
        ["[" + FormatSquadName(configs[0].board.name) + "] " + configs[0].sprint.value.goal.value] + rest
      else rest
  }

  const GoalSeparator := " \U{2022} "

  /** The distinct goal entries joined with " • ". */
  function CombinedGoal(configs: seq<BoardConfig>): string {
    Join(Distinct(GoalEntries(configs)), GoalSeparator)
  }

  /** The combined goal is empty exactly when no active sprint has a goal. */
  lemma CombinedGoalEmpty(configs: seq<BoardConfig>)
    ensures CombinedGoal(configs) == "" <==> forall i | 0 <= i < |configs| :: !HasGoal(configs[i])
  {
    var d := Distinct(GoalEntries(configs));
    if d != [] {
      JoinStartsWithFirst(d, GoalSeparator);
      assert d[0] in GoalEntries(configs);
    }
  }

  lemma JoinStartsWithFirst(parts: seq<string>, sep: string)
    requires parts != []
    ensures |Join(parts, sep)| >= |parts[0]| && Join(parts, sep)[..|parts[0]|] == parts[0]
  {
  }

  /** `d?.split('T')[0] || ''`: the date part of an ISO timestamp. */
  function DatePart(d: Option<string>): (r: string)
    ensures d.None? ==> r == ""
    ensures d.Some? ==> r == Split(d.value, 'T')[0] && 'T' !in r
  {
    match d
    case None => ""
    case Some(s) => IndexOfNotIn(s, 'T'); BeforeFirst(s, 'T')
  }

  lemma IndexOfNotIn(s: string, c: char)
    ensures c !in s[..IndexOf(s, c)]
  {
  }

  /** A date, or `today` when it is missing or empty. */
  function DateOr(d: Option<string>, today: string): (r: string)
    ensures r == today || r == DatePart(d)
  {
    if DatePart(d) != "" then DatePart(d) else today
  }

  /** The dashboard's sprint header: the global sprint, or the "No Active Sprint" placeholder. */
  function SprintInfoFor(global: Option<Sprint>, goal: string, today: string, total: nat, completed: nat): (r: SprintInfo)
    ensures r.goal == goal && r.totalStoryPoints == total && r.completedStoryPoints == completed
    ensures global.None? ==> r.id == "no-active-sprint" && r.number == 0 && r.startDate == today && r.endDate == today
    ensures global.Some? ==> r.number == global.value.id && r.name == global.value.name
  {
    match global
    case Some(s) =>
      SprintInfo(IntToString(s.id), s.name, s.id, DateOr(s.startDate, today), DateOr(s.endDate, today),
                 total, completed, goal, None, None)
    case None =>
      SprintInfo("no-active-sprint", "No Active Sprint", 0, today, today, total, completed, goal, None, None)
  }
  // ---------------------------------------------------------------------
  // The per-board fold of aggregateSquadsData

  /** The issues a board contributes: none without an active sprint or when the fetch fails. */
  function BoardIssues(remote: Remote, config: BoardConfig): (r: Option<seq<Issue>>)
    ensures r.Some? <==> config.sprint.Some? && remote.sprintIssues(config.board.id, config.sprint.value.id).Ok?
    ensures r.Some? ==> r.value == remote.sprintIssues(config.board.id, config.sprint.value.id).value
  {
    match config.sprint
    case None => None
    case Some(s) =>
      match remote.sprintIssues(config.board.id, s.id)
      case Ok(issues) => Some(issues)
      case Err(_) => None
  }

  /** The accumulators of the fold over boards. */
  datatype Totals = Totals(
    squads: seq<SquadData>,
    tasks: seq<TaskItem>,
    alerts: seq<Alert>,
    persons: map<string, seq<PersonEntry>>,
    totalSP: nat,
    completedSP: nat,
    priorities: PriorityStats)

  const NoTotals := Totals([], [], [], map[], 0, 0, PriorityStats(0, 0, 0))

  function AlertSeq(a: Option<Alert>): seq<Alert> {
    match a
    case Some(x) => [x]
    case None => []
  }

  /** What one processed board contributes: its squad, task rows, alert, person map and counters. */
  datatype BoardPart = BoardPart(
    squad: SquadData,
    tasks: seq<TaskItem>,
    alert: Option<Alert>,
    persons: seq<PersonEntry>,
    tally: Tally)

  function BoardPartOf(board: Board, sprint: Sprint, issues: seq<Issue>): BoardPart {
    BoardPart(
      SquadOf(board, sprint, issues),
      TasksOf(FormatSquadName(board.name), sprint.name, issues),
      AlertOf(board, issues),
      PersonsOf(issues),
      TallyOf(issues))
  }

  /** The accumulators after adding one board's part; its person map is stored under the squad id. */
  function AddPart(acc: Totals, squadId: string, p: BoardPart): Totals {
    Totals(
      acc.squads + [p.squad],
      acc.tasks + p.tasks,
      acc.alerts + AlertSeq(p.alert),
      acc.persons[squadId := p.persons],
      acc.totalSP + p.tally.total,
      acc.completedSP + p.tally.completed,
      PriorityStats(acc.priorities.high + p.tally.high, acc.priorities.medium + p.tally.medium,
                    acc.priorities.low + p.tally.low))
  }

  /** The accumulators after the boards, in board order. */
  function TotalsOf(remote: Remote, configs: seq<BoardConfig>): Totals
    decreases |configs|
  {
    if configs == [] then NoTotals
    else
      var acc := TotalsOf(remote, configs[..|configs| - 1]);
      var config := configs[|configs| - 1];
      match BoardIssues(remote, config)
      case None => acc
      case Some(issues) => AddPart(acc, SquadId(config.board), BoardPartOf(config.board, config.sprint.value, issues))
  }

  /** One board with an active sprint and its fetched issues: the issue loop, then the squad metrics. */
  method ProcessBoard(board: Board, sprint: Sprint, issues: seq<Issue>) returns (p: BoardPart)
    ensures p == BoardPartOf(board, sprint, issues)
  {
    var tally, persons, tasks := FoldIssues(FormatSquadName(board.name), sprint.name, issues);
    p := BoardPart(SquadOf(board, sprint, issues), tasks, AlertOf(board, issues), persons, tally);
  }

  lemma TotalsStep(remote: Remote, configs: seq<BoardConfig>, i: nat)
    requires i < |configs|
    ensures BoardIssues(remote, configs[i]).None? ==> TotalsOf(remote, configs[..i + 1]) == TotalsOf(remote, configs[..i])
    ensures BoardIssues(remote, configs[i]).Some? ==>
      TotalsOf(remote, configs[..i + 1]) == AddPart(TotalsOf(remote, configs[..i]), SquadId(configs[i].board),
              BoardPartOf(configs[i].board, configs[i].sprint.value, BoardIssues(remote, configs[i]).value))
  {
    assert configs[..i + 1][..i] == configs[..i];
  }

  /** The loop over the boards: skipped boards leave the accumulators as they are. */
  method ProcessBoards(remote: Remote, configs: seq<BoardConfig>) returns (acc: Totals)
    ensures acc == TotalsOf(remote, configs)
  {
    acc := NoTotals;
    for i := 0 to |configs|
      invariant acc == TotalsOf(remote, configs[..i])
    {
      TotalsStep(remote, configs, i);
      var config := configs[i];
      if config.sprint.Some? {
        var answer := remote.sprintIssues(config.board.id, config.sprint.value.id);
        if answer.Ok? {
          var p := ProcessBoard(config.board, config.sprint.value, answer.value);
          acc := AddPart(acc, SquadId(config.board), p);
        }
      }
    }
    assert configs[..|configs|] == configs;
  }

  function SumTotal(squads: seq<SquadData>): nat
    decreases |squads|
  {
    if squads == [] then 0 else SumTotal(squads[..|squads| - 1]) + squads[|squads| - 1].total
  }

  function SumCompleted(squads: seq<SquadData>): nat
    decreases |squads|
  {
    if squads == [] then 0 else SumCompleted(squads[..|squads| - 1]) + squads[|squads| - 1].completed
  }

  /** The number of boards that yield a squad. */
  function CountProcessed(remote: Remote, configs: seq<BoardConfig>): nat
    decreases |configs|
  {
    if configs == [] then 0
    else
      var n := CountProcessed(remote, configs[..|configs| - 1]);
      if BoardIssues(remote, configs[|configs| - 1]).Some? then n + 1 else n
  }

  /** The number of squads with at least one blocker. */
  function CountBlocked(squads: seq<SquadData>): nat
    decreases |squads|
  {
    if squads == [] then 0
    else CountBlocked(squads[..|squads| - 1]) + if squads[|squads| - 1].blockers > 0 then 1 else 0
  }

  /** The sprint totals are the sums over the squads. */
  lemma {:induction false} TotalsAreSquadSums(remote: Remote, configs: seq<BoardConfig>)
    ensures TotalsOf(remote, configs).totalSP == SumTotal(TotalsOf(remote, configs).squads)
    ensures TotalsOf(remote, configs).completedSP == SumCompleted(TotalsOf(remote, configs).squads)
    decreases |configs|
  {
    if configs != [] {
      var init := configs[..|configs| - 1];
      TotalsAreSquadSums(remote, init);
      var config := configs[|configs| - 1];
      var issues := BoardIssues(remote, config);
      if issues.Some? {
        var p := BoardPartOf(config.board, config.sprint.value, issues.value);
        PartSums(config.board, config.sprint.value, issues.value);
        AddPartSums(TotalsOf(remote, init), SquadId(config.board), p);
      }
    }
  }

  /** The sprint's completed points never exceed its total. */
  lemma {:induction false} TotalsCompletedWithinTotal(remote: Remote, configs: seq<BoardConfig>)
    ensures TotalsOf(remote, configs).completedSP <= TotalsOf(remote, configs).totalSP
    decreases |configs|
  {
    if configs != [] {
      TotalsCompletedWithinTotal(remote, configs[..|configs| - 1]);
      var config := configs[|configs| - 1];
      var issues := BoardIssues(remote, config);
      if issues.Some? {
        CompletedWithinTotal(issues.value);
      }
    }
  }

  /** A board's squad record carries its tally's totals. */
  lemma PartSums(board: Board, sprint: Sprint, issues: seq<Issue>)
    ensures var p := BoardPartOf(board, sprint, issues);
      p.squad.total == p.tally.total && p.squad.completed == p.tally.completed
  {
    TallySums(issues);
  }

  /** Adding a part whose squad carries its tally keeps the totals equal to the squad sums. */
  lemma AddPartSums(acc: Totals, squadId: string, p: BoardPart)
    requires acc.totalSP == SumTotal(acc.squads) && acc.completedSP == SumCompleted(acc.squads)
    requires p.squad.total == p.tally.total && p.squad.completed == p.tally.completed
    ensures var r := AddPart(acc, squadId, p);
      r.totalSP == SumTotal(r.squads) && r.completedSP == SumCompleted(r.squads)
  {
    var r := AddPart(acc, squadId, p);
    assert r.squads[..|r.squads| - 1] == acc.squads;
  }

  /**
   * SP-weighted priority buckets: since every priority maps to High, Medium
   * or Low, the three sums always make up the total story points.
   */
  lemma {:induction false} PriorityStatsCoverTotal(remote: Remote, configs: seq<BoardConfig>)
    ensures var t := TotalsOf(remote, configs);
      t.priorities.high + t.priorities.medium + t.priorities.low == t.totalSP
    decreases |configs|
  {
    if configs != [] {
      PriorityStatsCoverTotal(remote, configs[..|configs| - 1]);
      var issues := BoardIssues(remote, configs[|configs| - 1]);
      if issues.Some? {
        PrioritiesCoverTotal(issues.value);
      }
    }
  }

  /**
   * `a` is the alert of squad `q`: it names the squad, which has blockers,
   * is critical exactly from three blockers on, and counts the squad's open
   * work (to do and in progress).
   */
  predicate AlertOfSquad(a: Alert, q: SquadData) {
    a.id == "alert-" + q.id && a.squad == q.name && q.blockers > 0 &&
    (a.kind == Critical <==> q.blockers >= 3) &&
    a.storyPointsAffected == q.taskDistribution.todo + q.taskDistribution.inProgress
  }

  /** A board's part: its alert exists exactly when its squad has blockers, and belongs to it. */
  lemma BoardPartAlert(board: Board, sprint: Sprint, issues: seq<Issue>)
    ensures var p := BoardPartOf(board, sprint, issues);
      (p.alert.Some? <==> p.squad.blockers > 0) && (p.alert.Some? ==> AlertOfSquad(p.alert.value, p.squad))
  {
  }

  /** One squad per board with an active sprint whose issues were fetched. */
  lemma {:induction false} SquadPerProcessedBoard(remote: Remote, configs: seq<BoardConfig>)
    ensures |TotalsOf(remote, configs).squads| == CountProcessed(remote, configs)
    decreases |configs|
  {
    if configs != [] {
      SquadPerProcessedBoard(remote, configs[..|configs| - 1]);
    }
  }

  /** One alert per squad with blockers, each the alert of one of the squads. */
  lemma {:induction false} AlertPerBlockedSquad(remote: Remote, configs: seq<BoardConfig>)
    ensures |TotalsOf(remote, configs).alerts| == CountBlocked(TotalsOf(remote, configs).squads)
    ensures forall a | a in TotalsOf(remote, configs).alerts ::
      exists q | q in TotalsOf(remote, configs).squads :: AlertOfSquad(a, q)
    decreases |configs|
  {
    if configs != [] {
      var init := configs[..|configs| - 1];
      var acc := TotalsOf(remote, init);
      AlertPerBlockedSquad(remote, init);
      var config := configs[|configs| - 1];
      var issues := BoardIssues(remote, config);
      if issues.Some? {
        var p := BoardPartOf(config.board, config.sprint.value, issues.value);
        BoardPartAlert(config.board, config.sprint.value, issues.value);
        var t := AddPart(acc, SquadId(config.board), p);
        assert TotalsOf(remote, configs) == t;
        assert t.squads[..|t.squads| - 1] == acc.squads;
        forall a | a in t.alerts ensures exists q | q in t.squads :: AlertOfSquad(a, q) {
          if a in acc.alerts {
            var q :| q in acc.squads && AlertOfSquad(a, q);
            assert q in t.squads;
          } else {
            assert a == p.alert.value && p.squad in t.squads;
          }
        }
      }
    }
  }
  // ---------------------------------------------------------------------
  // collectAllSprints

  const SprintsKey := "all-sprints-collection"
  const SprintsTtl := 1800

  /** Every board's sprint listing, flattened in board order; a failed listing counts as empty. */
  function BoardSprints(remote: Remote, configs: seq<BoardConfig>): seq<Sprint>
    decreases |configs|
  {
    if configs == [] then []
    else
      var listed := match remote.sprints(configs[|configs| - 1].board.id)
        case Ok(sprints) => sprints
        case Err(_) => [];
      BoardSprints(remote, configs[..|configs| - 1]) + listed
  }

  /** The ids of the sprints. */
  function Ids(sprints: seq<Sprint>): set<int> {
    set k | 0 <= k < |sprints| :: sprints[k].id
  }

  /** The sprints whose id has not been seen before, in order: the first occurrence wins. */
  function FirstById(sprints: seq<Sprint>): seq<Sprint>
    decreases |sprints|
  {
    if sprints == [] then []
    else
      var r := FirstById(sprints[..|sprints| - 1]);
      var last := sprints[|sprints| - 1];
      if last.id in Ids(r) then r else r + [last]
  }

  lemma IdsAppend(xs: seq<Sprint>, x: Sprint)
    ensures Ids(xs + [x]) == Ids(xs) + {x.id}
  {
    assert forall k | 0 <= k < |xs| :: (xs + [x])[k] == xs[k];
    assert (xs + [x])[|xs|] == x;
  }

  /** De-duplication keeps exactly the ids of its input. */
  lemma {:induction false} FirstByIdIds(sprints: seq<Sprint>)
    ensures Ids(FirstById(sprints)) == Ids(sprints)
    decreases |sprints|
  {
    if sprints != [] {
      var init := sprints[..|sprints| - 1];
      var last := sprints[|sprints| - 1];
      FirstByIdIds(init);
      assert sprints == init + [last];
      IdsAppend(init, last);
      IdsAppend(FirstById(init), last);
    }
  }

  /** Each id is kept once. */
  lemma {:induction false} FirstByIdDistinct(sprints: seq<Sprint>)
    ensures DistinctKeys(FirstById(sprints), (x: Sprint) => x.id)
    decreases |sprints|
  {
    if sprints != [] {
      var r := FirstById(sprints[..|sprints| - 1]);
      var last := sprints[|sprints| - 1];
      FirstByIdDistinct(sprints[..|sprints| - 1]);
      if last.id !in Ids(r) {
        var r2 := r + [last];
        forall i, j | 0 <= i < j < |r2| ensures r2[i].id != r2[j].id {
          assert r2[i] == r[i];
          if j < |r| {
            assert r2[j] == r[j];
          }
        }
      }
    }
  }

  /** `x` is the first sprint of `sprints` with its id. */
  ghost predicate FirstWithItsId(sprints: seq<Sprint>, x: Sprint) {
    exists i | 0 <= i < |sprints| :: sprints[i] == x && forall j | 0 <= j < i :: sprints[j].id != x.id
  }

  /** Every kept sprint is the first in its input with that id. */
  lemma {:induction false} FirstByIdFirst(sprints: seq<Sprint>)
    ensures forall x | x in FirstById(sprints) :: FirstWithItsId(sprints, x)
    decreases |sprints|
  {
    if sprints != [] {
      var init := sprints[..|sprints| - 1];
      var r := FirstById(init);
      FirstByIdFirst(init);
      forall x | x in FirstById(sprints) ensures FirstWithItsId(sprints, x) {
        if x in r {
          FirstWithItsIdExtends(init, sprints, x);
        } else {
          FirstByIdIds(init);
          LastFirstWithItsId(sprints);
        }
      }
    }
  }

  lemma FirstWithItsIdExtends(init: seq<Sprint>, sprints: seq<Sprint>, x: Sprint)
    requires |init| <= |sprints| && init == sprints[..|init|] && FirstWithItsId(init, x)
    ensures FirstWithItsId(sprints, x)
  {
    var i :| 0 <= i < |init| && init[i] == x && forall j | 0 <= j < i :: init[j].id != x.id;
    assert sprints[i] == x;
    forall j | 0 <= j < i ensures sprints[j].id != x.id {
      assert sprints[j] == init[j];
    }
  }

  lemma LastFirstWithItsId(sprints: seq<Sprint>)
    requires sprints != [] && sprints[|sprints| - 1].id !in Ids(sprints[..|sprints| - 1])
    ensures FirstWithItsId(sprints, sprints[|sprints| - 1])
  {
    var init := sprints[..|sprints| - 1];
    forall j | 0 <= j < |init| ensures sprints[j].id != sprints[|sprints| - 1].id {
      assert sprints[j] == init[j];
    }
  }

  /** The `SprintInfo` of a listed sprint: dates cut at 'T' (or empty), no totals yet. */
  function SprintInfoOf(s: Sprint): (r: SprintInfo)
    ensures r.number == s.id
  {
    SprintInfo(IntToString(s.id), s.name, s.id, DatePart(s.startDate), DatePart(s.endDate), 0, 0,
               s.goal.GetOr(""), None, None)
  }

  function InfosOf(sprints: seq<Sprint>): (r: seq<SprintInfo>)
    ensures |r| == |sprints| && forall k | 0 <= k < |sprints| :: r[k] == SprintInfoOf(sprints[k])
  {
    seq(|sprints|, k requires 0 <= k < |sprints| => SprintInfoOf(sprints[k]))
  }

  /** The consolidation loop: a set of seen ids, converting each sprint seen for the first time. */
  method Consolidate(sprints: seq<Sprint>) returns (infos: seq<SprintInfo>)
    ensures infos == InfosOf(FirstById(sprints))
  {
    var seen: set<int> := {};
    infos := [];
    ghost var kept: seq<Sprint> := [];
    for i := 0 to |sprints|
      invariant kept == FirstById(sprints[..i])
      invariant seen == Ids(kept)
      invariant infos == InfosOf(kept)
    {
      assert sprints[..i + 1][..i] == sprints[..i];
      var sprint := sprints[i];
      if sprint.id !in seen {
        IdsAppend(kept, sprint);
        seen := seen + {sprint.id};
        infos := infos + [SprintInfoOf(sprint)];
        kept := kept + [sprint];
      }
    }
    assert sprints[..|sprints|] == sprints;
  }

  /**
   * The comparator: an undated sprint sorts last, dated sprints newest
   * first by their date string.
   */
  predicate NewerFirst(a: SprintInfo, b: SprintInfo) {
    b.startDate == "" || (a.startDate != "" && LexLe(b.startDate, a.startDate))
  }

  lemma NewerFirstPreorder(s: seq<SprintInfo>)
    ensures TotalOn(NewerFirst, s) && TransitiveOn(NewerFirst, s)
  {
    forall a, b ensures NewerFirst(a, b) || NewerFirst(b, a) {
      LexLeTotal(a.startDate, b.startDate);
    }
    forall a, b, c | NewerFirst(a, b) && NewerFirst(b, c) ensures NewerFirst(a, c) {
      if c.startDate != "" {
        LexLeTransitive(c.startDate, b.startDate, a.startDate);
      }
    }
  }

  /** The sprints, de-duplicated by id, converted and sorted newest first. */
  function Collected(sprints: seq<Sprint>): seq<SprintInfo> {
    Sort(InfosOf(FirstById(sprints)), NewerFirst)
  }

  /** What a fresh collection yields. */
  function SprintCollection(remote: Remote, configs: seq<BoardConfig>): seq<SprintInfo> {
    Collected(BoardSprints(remote, configs))
  }

  /** The collection holds only listed sprint ids... */
  lemma CollectedIdsListed(sprints: seq<Sprint>)
    ensures forall k | 0 <= k < |Collected(sprints)| :: Collected(sprints)[k].number in Ids(sprints)
  {
    var kept := FirstById(sprints);
    var infos := InfosOf(kept);
    var r := Sort(infos, NewerFirst);
    FirstByIdIds(sprints);
    forall k | 0 <= k < |r| ensures r[k].number in Ids(kept) {
      assert r[k] in multiset(infos);
      var m :| 0 <= m < |infos| && infos[m] == r[k];
      assert r[k].number == kept[m].id;
    }
  }

  /** ...and every one of them. */
  lemma CollectedIdsAll(sprints: seq<Sprint>)
    ensures forall id | id in Ids(sprints) :: exists k | 0 <= k < |Collected(sprints)| :: Collected(sprints)[k].number == id
  {
    var kept := FirstById(sprints);
    var infos := InfosOf(kept);
    var r := Sort(infos, NewerFirst);
    FirstByIdIds(sprints);
    assert r == Collected(sprints);
    forall id | id in Ids(sprints) ensures exists k | 0 <= k < |r| :: r[k].number == id {
      assert id in Ids(kept);
      var m :| 0 <= m < |kept| && kept[m].id == id;
      assert infos[m] in multiset(r);
      var k :| 0 <= k < |r| && r[k] == infos[m];
      assert r[k].number == id;
    }
  }

  /** No two collected sprints share an id. */
  lemma CollectedDistinct(sprints: seq<Sprint>)
    ensures forall i, j | 0 <= i < j < |Collected(sprints)| :: Collected(sprints)[i].number != Collected(sprints)[j].number
  {
    var kept := FirstById(sprints);
    var infos := InfosOf(kept);
    FirstByIdDistinct(sprints);
    assert DistinctKeys(infos, (x: SprintInfo) => x.number) by {
      forall i, j | 0 <= i < j < |infos| ensures infos[i].number != infos[j].number {
        assert infos[i].number == kept[i].id && infos[j].number == kept[j].id;
      }
    }
    SortKeepsKeysDistinct(infos, NewerFirst, (x: SprintInfo) => x.number);
  }

  /** Dated sprints come before undated ones, and dated ones are newest first. */
  lemma CollectedOrder(sprints: seq<Sprint>)
    ensures var r := Collected(sprints);
      (forall i, j | 0 <= i < j < |r| && r[i].startDate == "" :: r[j].startDate == "") &&
      (forall i, j | 0 <= i < j < |r| && r[j].startDate != "" :: LexLe(r[j].startDate, r[i].startDate))
  {
    var infos := InfosOf(FirstById(sprints));
    NewerFirstPreorder(infos);
    SortSorted(infos, NewerFirst);
  }

  /**
   * Sprint ids are pairwise distinct, the first listing of an id wins, a
   * board whose listing fails contributes nothing, and the order is as
   * `CollectedOrder` states.
   */
  lemma SprintCollectionProperties(remote: Remote, configs: seq<BoardConfig>)
    ensures var r := SprintCollection(remote, configs);
      (forall i, j | 0 <= i < j < |r| :: r[i].number != r[j].number) &&
      (forall k | 0 <= k < |r| :: r[k].number in Ids(BoardSprints(remote, configs))) &&
      (forall x | x in FirstById(BoardSprints(remote, configs)) :: FirstWithItsId(BoardSprints(remote, configs), x))
  {
    CollectedIdsListed(BoardSprints(remote, configs));
    CollectedDistinct(BoardSprints(remote, configs));
    FirstByIdFirst(BoardSprints(remote, configs));
  }

  /** What `collectAllSprints` returns and leaves in the cache. */
  function SprintsRun(store: Store<CachedValue>, remote: Remote, configs: seq<BoardConfig>, now: int)
    : (seq<SprintInfo>, Store<CachedValue>)
  {
    var v := Lookup(store, SprintsKey, now);
    if v.Some? && v.value.SprintsValue? then (v.value.sprints, store)
    else
      var r := Collected(BoardSprints(remote, configs));
      (r, Put(AfterLookup(store, SprintsKey, now), SprintsKey, SprintsValue(r), Some(SprintsTtl), now))
  }

  /**
   * `collectAllSprints`: a cached collection is returned as it is; otherwise
   * the sprints are collected, sorted and cached for 1800 seconds.
   */
  method CollectAllSprints(cache: DashboardCache, remote: Remote, configs: seq<BoardConfig>, now: int)
    returns (r: seq<SprintInfo>)
    modifies cache
    ensures (r, cache.store) == SprintsRun(old(cache.store), remote, configs, now)
  {
    var cached := cache.Get(SprintsKey, now);
    if cached.Some? && cached.value.SprintsValue? {
      return cached.value.sprints;
    }
    var infos := Consolidate(BoardSprints(remote, configs));
    r := Sort(infos, NewerFirst);
    cache.Set(SprintsKey, SprintsValue(r), Some(SprintsTtl), now);
  }
  // ---------------------------------------------------------------------
  // Assignee and issue-type vocabularies

  const MetadataTtl := 1800
  const MetadataBoards := 3

  function MetadataKey(board: Board): string {
    "board-history-metadata-" + IntToString(board.id)
  }

  /** The assignee (or "Unassigned") of every issue, in order. */
  function AssigneesOf(issues: seq<Issue>): (r: seq<string>)
    ensures |r| == |issues| && forall k | 0 <= k < |issues| :: r[k] == AssigneeOf(issues[k])
  {
    seq(|issues|, k requires 0 <= k < |issues| => AssigneeOf(issues[k]))
  }

  /** The issue type (or "Unknown") of every issue, in order. */
  function TypesOf(issues: seq<Issue>): (r: seq<string>)
    ensures |r| == |issues| && forall k | 0 <= k < |issues| :: r[k] == OriginalIssueType(issues[k].fields.issueType)
  {
    seq(|issues|, k requires 0 <= k < |issues| => OriginalIssueType(issues[k].fields.issueType))
  }

  /** The distinct assignees and types of a board's history, in first-seen order. */
  function MetadataOf(issues: seq<Issue>): Metadata {
    Metadata(Distinct(AssigneesOf(issues)), Distinct(TypesOf(issues)))
  }

  /**
   * One board's metadata and the cache after it: a cached record is used as
   * it is; a fetched history is summarised and cached for 1800 seconds; a
   * failed fetch gives empty lists and caches nothing.
   */
  function MetadataStep(store: Store<CachedValue>, remote: Remote, board: Board, now: int)
    : (Metadata, Store<CachedValue>)
  {
    var key := MetadataKey(board);
    var v := Lookup(store, key, now);
    if v.Some? && v.value.MetadataValue? then (v.value.metadata, store)
    else
      var s1 := AfterLookup(store, key, now);
      match remote.history(board.id)
      case Err(_) => (NoMetadata, s1)
      case Ok(issues) => (MetadataOf(issues), Put(s1, key, MetadataValue(MetadataOf(issues)), Some(MetadataTtl), now))
  }

  /** The metadata of the boards merged in board order, and the cache after them. */
  function MetadataRun(store: Store<CachedValue>, remote: Remote, boards: seq<Board>, now: int)
    : (Metadata, Store<CachedValue>)
    decreases |boards|
  {
    if boards == [] then (NoMetadata, store)
    else
      var (m, s1) := MetadataStep(store, remote, boards[0], now);
      var (rest, s2) := MetadataRun(s1, remote, boards[1..], now);
      (Merge(m, rest), s2)
  }

  /** Two lists of assignees and of types, one after the other. */
  function Merge(a: Metadata, b: Metadata): Metadata {
    Metadata(a.assignees + b.assignees, a.types + b.types)
  }

  const NoMetadata := Metadata([], [])

  lemma MergeAssociative(a: Metadata, b: Metadata, c: Metadata)
    ensures Merge(a, Merge(b, c)) == Merge(Merge(a, b), c)
  {
    assert a.assignees + (b.assignees + c.assignees) == (a.assignees + b.assignees) + c.assignees;
    assert a.types + (b.types + c.types) == (a.types + b.types) + c.types;
  }

  lemma MergeNone(a: Metadata)
    ensures Merge(a, NoMetadata) == a && Merge(NoMetadata, a) == a
  {
    assert a.assignees + [] == a.assignees && [] + a.assignees == a.assignees;
    assert a.types + [] == a.types && [] + a.types == a.types;
  }

  lemma MetadataRunAt(store: Store<CachedValue>, remote: Remote, boards: seq<Board>, i: nat, now: int)
    requires i < |boards|
    ensures var (m, s1) := MetadataStep(store, remote, boards[i], now);
      var (rest, s2) := MetadataRun(s1, remote, boards[i + 1..], now);
      MetadataRun(store, remote, boards[i..], now) == (Merge(m, rest), s2)
  {
    assert boards[i..][1..] == boards[i + 1..];
  }

  /** The boards whose history is consulted: the first three. */
  function FirstBoards(configs: seq<BoardConfig>): (r: seq<Board>)
    ensures |r| <= |configs| && |r| <= MetadataBoards && (|configs| >= MetadataBoards ==> |r| == MetadataBoards)
    ensures forall k | 0 <= k < |r| :: r[k] == configs[k].board
  {
    var n := if |configs| < MetadataBoards then |configs| else MetadataBoards;
    seq(n, k requires 0 <= k < n => configs[k].board)
  }

  method BoardMetadata(cache: DashboardCache, remote: Remote, board: Board, now: int) returns (m: Metadata)
    modifies cache
    ensures (m, cache.store) == MetadataStep(old(cache.store), remote, board, now)
  {
    var key := MetadataKey(board);
    var cached := cache.Get(key, now);
    if cached.Some? && cached.value.MetadataValue? {
      return cached.value.metadata;
    }
    var answer := remote.history(board.id);
    if answer.Err? {
      return NoMetadata;
    }
    m := MetadataOf(answer.value);
    cache.Set(key, MetadataValue(m), Some(MetadataTtl), now);
  }

  /** The metadata loop over the given boards. */
  method HistoryMetadata(cache: DashboardCache, remote: Remote, boards: seq<Board>, now: int) returns (m: Metadata)
    modifies cache
    ensures (m, cache.store) == MetadataRun(old(cache.store), remote, boards, now)
  {
    m := NoMetadata;
    ghost var run := MetadataRun(cache.store, remote, boards, now);
    MergeNone(run.0);
    assert boards[0..] == boards;
    for i := 0 to |boards|
      invariant var rest := MetadataRun(cache.store, remote, boards[i..], now);
        run == (Merge(m, rest.0), rest.1)
    {
      ghost var before := cache.store;
      var one := BoardMetadata(cache, remote, boards[i], now);
      MetadataRunAt(before, remote, boards, i, now);
      MergeAssociative(m, one, MetadataRun(cache.store, remote, boards[i + 1..], now).0);
      m := Merge(m, one);
    }
    assert boards[|boards|..] == [];
    MergeNone(m);
  }

  /** The metadata run touches no cache key but the metadata keys of its boards. */
  lemma {:induction false} MetadataRunFrame(store: Store<CachedValue>, remote: Remote, boards: seq<Board>, now: int, key: string)
    requires forall b | b in boards :: key != MetadataKey(b)
    ensures var s := MetadataRun(store, remote, boards, now).1;
      (key in s <==> key in store) && (key in store ==> s[key] == store[key])
    decreases |boards|
  {
    if boards != [] {
      var s1 := MetadataStep(store, remote, boards[0], now).1;
      assert forall b | b in boards[1..] :: b in boards;
      MetadataRunFrame(s1, remote, boards[1..], now, key);
    }
  }

  /** The sorted, de-duplicated vocabularies of the dashboard. */
  function Vocabulary(fromTasks: seq<string>, fromHistory: seq<string>): (r: seq<string>)
    ensures forall x :: x in r <==> x in fromTasks || x in fromHistory
    ensures NoDuplicates(r) && SortedBy(r, LexLe)
  {
    SortedDistinct(fromTasks + fromHistory)
  }

  function TaskAssignees(tasks: seq<TaskItem>): (r: seq<string>)
    ensures |r| == |tasks| && forall k | 0 <= k < |tasks| :: r[k] == tasks[k].assignee
  {
    seq(|tasks|, k requires 0 <= k < |tasks| => tasks[k].assignee)
  }

  function TaskTypes(tasks: seq<TaskItem>): (r: seq<string>)
    ensures |r| == |tasks| && forall k | 0 <= k < |tasks| :: r[k] == tasks[k].kind
  {
    seq(|tasks|, k requires 0 <= k < |tasks| => tasks[k].kind)
  }

  // ---------------------------------------------------------------------
  // aggregateSquadsData

  /** The dashboard record and the cache after `aggregateSquadsData`; `today` stands for the clock. */
  function Dashboard(store: Store<CachedValue>, remote: Remote, configs: seq<BoardConfig>, now: int, today: string)
    : (DashboardData, Store<CachedValue>)
  {
    var totals := TotalsOf(remote, configs);
    var (sprints, s1) := SprintsRun(store, remote, configs, now);
    var (meta, s2) := MetadataRun(s1, remote, FirstBoards(configs), now);
    (DashboardData(
       SprintInfoFor(FirstSprint(configs), CombinedGoal(configs), today, totals.totalSP, totals.completedSP),
       totals.squads,
       totals.alerts,
       totals.persons,
       totals.tasks,
       totals.priorities,
       sprints,
       Vocabulary(TaskAssignees(totals.tasks), meta.assignees),
       Vocabulary(TaskTypes(totals.tasks), meta.types)),
     s2)
  }

  /** `aggregateSquadsData`. */
  method AggregateSquadsData(cache: DashboardCache, remote: Remote, configs: seq<BoardConfig>, now: int, today: string)
    returns (d: DashboardData)
    modifies cache
    ensures (d, cache.store) == Dashboard(old(cache.store), remote, configs, now, today)
  {
    var global := FindGlobalSprint(configs);
    var goal := CombinedGoal(configs);
    var totals := ProcessBoards(remote, configs);
    var sprintInfo := SprintInfoFor(global, goal, today, totals.totalSP, totals.completedSP);
    var sprints := CollectAllSprints(cache, remote, configs, now);
    var meta := HistoryMetadata(cache, remote, FirstBoards(configs), now);
    d := DashboardData(
      sprintInfo, totals.squads, totals.alerts, totals.persons, totals.tasks, totals.priorities, sprints,
      Vocabulary(TaskAssignees(totals.tasks), meta.assignees),
      Vocabulary(TaskTypes(totals.tasks), meta.types));
  }

  /** The header's totals are the sums over the squads, and the priority buckets sum to the total. */
  lemma DashboardTotals(store: Store<CachedValue>, remote: Remote, configs: seq<BoardConfig>, now: int, today: string)
    ensures var d := Dashboard(store, remote, configs, now, today).0;
      d.sprint.totalStoryPoints == SumTotal(d.squads) &&
      d.sprint.completedStoryPoints == SumCompleted(d.squads) &&
      d.priorityStats.high + d.priorityStats.medium + d.priorityStats.low == d.sprint.totalStoryPoints
  {
    TotalsAreSquadSums(remote, configs);
    TotalsCompletedWithinTotal(remote, configs);
    PriorityStatsCoverTotal(remote, configs);
  }

  /**
   * Every task's assignee and type are offered as filter values, and the
   * offered values are sorted and distinct.
   */
  lemma DashboardVocabularies(store: Store<CachedValue>, remote: Remote, configs: seq<BoardConfig>, now: int, today: string)
    ensures var d := Dashboard(store, remote, configs, now, today).0;
      (forall t | t in d.tasks :: t.assignee in d.availableAssignees && t.kind in d.availableIssueTypes) &&
      NoDuplicates(d.availableAssignees) && SortedBy(d.availableAssignees, LexLe) &&
      NoDuplicates(d.availableIssueTypes) && SortedBy(d.availableIssueTypes, LexLe)
  {
    var d := Dashboard(store, remote, configs, now, today).0;
    TasksOffered(d.tasks);
  }

  lemma TasksOffered(tasks: seq<TaskItem>)
    ensures forall t | t in tasks :: t.assignee in TaskAssignees(tasks) && t.kind in TaskTypes(tasks)
  {
    forall t | t in tasks ensures t.assignee in TaskAssignees(tasks) && t.kind in TaskTypes(tasks) {
      var k :| 0 <= k < |tasks| && tasks[k] == t;
      assert TaskAssignees(tasks)[k] == t.assignee && TaskTypes(tasks)[k] == t.kind;
    }
  }
}
