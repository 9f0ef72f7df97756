/**
 * The dashboard page: the data it shows, the tasks and squads left by the
 * advanced filters, the headline figures and the option lists offered to
 * the filter panel.
 */
module DashboardPage {
  import opened Wrappers
  import opened Strings
  import opened Sorting
  import opened Lists
  import opened DashboardTypes
  import opened Filters
  import SquadFold

  /** The fields of the dashboard record the page reads. */
  datatype ClientData = ClientData(
    sprint: SprintInfo,
    squads: seq<SquadView>,
    alerts: seq<Alert>,
    tasks: seq<TaskItem>,
    availableSprints: Option<seq<SprintInfo>>,
    availableAssignees: Option<seq<string>>,
    availableIssueTypes: Option<seq<string>>)

  /** `jiraData || (isError ? mockDashboardData : null)`. */
  function ChooseData(live: Option<ClientData>, isError: bool, mock: ClientData): (d: Option<ClientData>)
    ensures live.Some? ==> d == live
    ensures live.None? ==> (d.Some? <==> isError)
    ensures d.Some? && live.None? ==> d.value == mock
  {
    if live.Some? then live else if isError then Some(mock) else None
  }

  // ---------------------------------------------------------------------
  // Filtering

  /** An empty selection lets every value through. */
  predicate Admits(selection: seq<string>, value: string) {
    |selection| == 0 || value in selection
  }

  /** The six checks of `filteredTasks`, one per category. */
  predicate Keeps(filters: FilterValues, t: TaskItem) {
    Admits(filters.assignee, t.assignee) &&
    Admits(filters.priority, t.priority) &&
    Admits(filters.status, t.status) &&
    Admits(filters.issueType, t.kind) &&
    Admits(filters.squad, t.squad) &&
    Admits(filters.sprint, t.sprint)
  }

  function FilteredTasks(data: Option<ClientData>, filters: FilterValues): seq<TaskItem> {
    if data.None? then [] else Filter(data.value.tasks, t => Keeps(filters, t))
  }

  /** A task is shown iff every category admits it; the task order is kept. */
  lemma FilteredTasksKeep(d: ClientData, filters: FilterValues)
    ensures forall t :: t in FilteredTasks(Some(d), filters) <==> t in d.tasks && Keeps(filters, t)
    ensures forall a, b ::
      (FilteredTasks(Some(d.(tasks := a + b)), filters) ==
       FilteredTasks(Some(d.(tasks := a)), filters) + FilteredTasks(Some(d.(tasks := b)), filters))
  {
    FilterMembers(d.tasks, t => Keeps(filters, t));
    forall a, b ensures FilteredTasks(Some(d.(tasks := a + b)), filters) ==
      FilteredTasks(Some(d.(tasks := a)), filters) + FilteredTasks(Some(d.(tasks := b)), filters)
    {
      FilterConcat(a, b, t => Keeps(filters, t));
    }
  }

  /** With nothing selected every task is shown, in its order. */
  lemma NoFiltersShowAll(d: ClientData)
    ensures FilteredTasks(Some(d), NoFilters) == d.tasks
  {
    FilterAll(d.tasks, t => Keeps(NoFilters, t));
  }

  function FilteredSquads(data: Option<ClientData>, filters: FilterValues): seq<SquadView> {
    if data.None? then []
    else if |filters.squad| == 0 then data.value.squads
    else Filter(data.value.squads, (s: SquadView) => s.name in filters.squad)
  }

  /** Every squad without a squad selection; otherwise exactly the selected ones, in order. */
  lemma FilteredSquadsKeep(d: ClientData, filters: FilterValues)
    ensures |filters.squad| == 0 ==> FilteredSquads(Some(d), filters) == d.squads
    ensures |filters.squad| > 0 ==>
      forall s :: s in FilteredSquads(Some(d), filters) <==> s in d.squads && s.name in filters.squad
  {
    FilterMembers(d.squads, (s: SquadView) => s.name in filters.squad);
  }

  // ---------------------------------------------------------------------
  // Headline figures

  /** `overallPercentage`: completed over total story points, rounded, or 0. */
  function OverallPercentage(data: Option<ClientData>): (r: nat)
    ensures data.None? || data.value.sprint.totalStoryPoints == 0 ==> r == 0
    ensures (data.Some? && 0 < data.value.sprint.totalStoryPoints &&
             data.value.sprint.completedStoryPoints <= data.value.sprint.totalStoryPoints) ==> r <= 100
    ensures data.Some? && 0 < data.value.sprint.totalStoryPoints ==>
      (var s := data.value.sprint;
       2 * s.totalStoryPoints * r <= 200 * s.completedStoryPoints + s.totalStoryPoints <
       2 * s.totalStoryPoints * (r + 1))
  {
    if data.None? || data.value.sprint.totalStoryPoints == 0 then 0
    else
      var s := data.value.sprint;
      var n := 200 * s.completedStoryPoints + s.totalStoryPoints;
      var q := SquadFold.RoundPct(s.completedStoryPoints, s.totalStoryPoints);
      assert n == 2 * s.totalStoryPoints * q + n % (2 * s.totalStoryPoints);
      q
  }

  function CriticalAlerts(data: Option<ClientData>): nat {
    if data.None? then 0 else Count(data.value.alerts, (a: Alert) => a.kind == Critical)
  }

  /** The count is zero iff no alert is critical, and all iff every one is. */
  lemma CriticalAlertsBounds(d: ClientData)
    ensures CriticalAlerts(Some(d)) <= |d.alerts|
    ensures CriticalAlerts(Some(d)) == 0 <==> forall a | a in d.alerts :: a.kind != Critical
    ensures CriticalAlerts(Some(d)) == |d.alerts| <==> forall a | a in d.alerts :: a.kind == Critical
  {
    CountBounds(d.alerts, (a: Alert) => a.kind == Critical);
  }

  // ---------------------------------------------------------------------
  // Filter options

  datatype Options = Options(
    assignees: seq<string>,
    priorities: seq<string>,
    statuses: seq<string>,
    issueTypes: seq<string>,
    squads: seq<string>,
    sprints: seq<string>)

  const NoOptions := Options([], [], [], [], [], [])

  /** The non-empty values of one task field, in task order. */
  function Present(values: seq<string>): seq<string> {
    Filter(values, (v: string) => v != "")
  }

  function Priorities(tasks: seq<TaskItem>): seq<string> { Map(tasks, (t: TaskItem) => t.priority) }
  function Statuses(tasks: seq<TaskItem>): seq<string> { Map(tasks, (t: TaskItem) => t.status) }
  function SquadNames(tasks: seq<TaskItem>): seq<string> { Map(tasks, (t: TaskItem) => t.squad) }

  /** A backend list when it is there and non-empty, else the sorted distinct task values. */
  function Preferred(backend: Option<seq<string>>, fromTasks: seq<string>): seq<string> {
    var given := backend.GetOr([]);
    if |given| > 0 then given else SortedDistinct(fromTasks)
  }

  /** `availableOptions`. */
  function OptionsOf(data: Option<ClientData>): Options {
    if data.None? then NoOptions
    else
      var d := data.value;
      Options(
        Preferred(d.availableAssignees, Map(d.tasks, (t: TaskItem) => t.assignee)),
        SortedDistinct(Present(Priorities(d.tasks))),
        SortedDistinct(Present(Statuses(d.tasks))),
        Preferred(d.availableIssueTypes, Map(d.tasks, (t: TaskItem) => t.kind)),
        SortedDistinct(Present(SquadNames(d.tasks))),
        Map(d.availableSprints.GetOr([]), (s: SprintInfo) => s.name))
  }

  /** `values` as a `Set` fills after the values so far: first occurrences, in order. */
  lemma AddToSet(values: seq<string>, v: string)
    ensures Distinct(Present(values + [v])) ==
      if v != "" && v !in Distinct(Present(values)) then Distinct(Present(values)) + [v]
      else Distinct(Present(values))
  {
    FilterConcat(values, [v], (x: string) => x != "");
    FilterOne(v, (x: string) => x != "");
    var p := Present(values);
    if v != "" {
      assert (p + [v])[..|p|] == p;
    } else {
      assert p + [] == p;
    }
  }

  /** The `forEach` that fills the priority, status and squad sets. */
  method CollectTaskValues(tasks: seq<TaskItem>) returns (priorities: seq<string>, statuses: seq<string>, squads: seq<string>)
    ensures priorities == Distinct(Present(Priorities(tasks)))
    ensures statuses == Distinct(Present(Statuses(tasks)))
    ensures squads == Distinct(Present(SquadNames(tasks)))
  {
    priorities, statuses, squads := [], [], [];
    for i := 0 to |tasks|
      invariant priorities == Distinct(Present(Priorities(tasks[..i])))
      invariant statuses == Distinct(Present(Statuses(tasks[..i])))
      invariant squads == Distinct(Present(SquadNames(tasks[..i])))
    {
      var task := tasks[i];
      MapStep(tasks, i, (t: TaskItem) => t.priority);
      MapStep(tasks, i, (t: TaskItem) => t.status);
      MapStep(tasks, i, (t: TaskItem) => t.squad);
      AddToSet(Priorities(tasks[..i]), task.priority);
      AddToSet(Statuses(tasks[..i]), task.status);
      AddToSet(SquadNames(tasks[..i]), task.squad);
      if task.priority != "" && task.priority !in priorities {
        priorities := priorities + [task.priority];
      }
      if task.status != "" && task.status !in statuses {
        statuses := statuses + [task.status];
      }
      if task.squad != "" && task.squad !in squads {
        squads := squads + [task.squad];
      }
    }
    assert tasks[..|tasks|] == tasks;
  }

  method AvailableOptions(data: Option<ClientData>) returns (o: Options)
    ensures o == OptionsOf(data)
  {
    if data.None? {
      return NoOptions;
    }
    var d := data.value;
    var priorities, statuses, squads := CollectTaskValues(d.tasks);
    var assignees := d.availableAssignees.GetOr([]);
    var issueTypes := d.availableIssueTypes.GetOr([]);
    var sprints := Map(d.availableSprints.GetOr([]), (s: SprintInfo) => s.name);
    o := Options(
      if |assignees| > 0 then assignees else Sort(Distinct(Map(d.tasks, (t: TaskItem) => t.assignee)), LexLe),
      Sort(priorities, LexLe),
      Sort(statuses, LexLe),
      if |issueTypes| > 0 then issueTypes else Sort(Distinct(Map(d.tasks, (t: TaskItem) => t.kind)), LexLe),
      Sort(squads, LexLe),
      sprints);
  }

  /** Ascending and free of repeats. */
  ghost predicate Ordered(xs: seq<string>) {
    NoDuplicates(xs) && SortedBy(xs, LexLe)
  }

  /** An option list built from one task field: its non-empty values, sorted, once each. */
  lemma FieldOption(tasks: seq<TaskItem>, f: TaskItem -> string)
    ensures forall v :: v in SortedDistinct(Present(Map(tasks, f))) <==> v != "" && exists t | t in tasks :: f(t) == v
    ensures Ordered(SortedDistinct(Present(Map(tasks, f))))
  {
    FilterMembers(Map(tasks, f), (v: string) => v != "");
    MapMembers(tasks, f);
  }

  /** The priorities, statuses and squads offered are those the tasks carry. */
  lemma OptionsFromTasks(d: ClientData)
    ensures forall p :: p in OptionsOf(Some(d)).priorities <==> p != "" && exists t | t in d.tasks :: t.priority == p
    ensures forall s :: s in OptionsOf(Some(d)).statuses <==> s != "" && exists t | t in d.tasks :: t.status == s
    ensures forall q :: q in OptionsOf(Some(d)).squads <==> q != "" && exists t | t in d.tasks :: t.squad == q
    ensures Ordered(OptionsOf(Some(d)).priorities) && Ordered(OptionsOf(Some(d)).statuses)
    ensures Ordered(OptionsOf(Some(d)).squads)
  {
    FieldOption(d.tasks, (t: TaskItem) => t.priority);
    FieldOption(d.tasks, (t: TaskItem) => t.status);
    FieldOption(d.tasks, (t: TaskItem) => t.squad);
  }

  /** Assignees from the backend when it lists some, else those of the tasks. */
  lemma AssigneeOptions(d: ClientData)
    ensures |d.availableAssignees.GetOr([])| > 0 ==> OptionsOf(Some(d)).assignees == d.availableAssignees.value
    ensures |d.availableAssignees.GetOr([])| == 0 ==>
      forall a :: a in OptionsOf(Some(d)).assignees <==> exists t | t in d.tasks :: t.assignee == a
  {
    MapMembers(d.tasks, (t: TaskItem) => t.assignee);
  }

  /** Issue types from the backend when it lists some, else those of the tasks. */
  lemma IssueTypeOptions(d: ClientData)
    ensures |d.availableIssueTypes.GetOr([])| > 0 ==> OptionsOf(Some(d)).issueTypes == d.availableIssueTypes.value
    ensures |d.availableIssueTypes.GetOr([])| == 0 ==>
      forall k :: k in OptionsOf(Some(d)).issueTypes <==> exists t | t in d.tasks :: t.kind == k
  {
    MapMembers(d.tasks, (t: TaskItem) => t.kind);
  }

  /** The sprint names of the backend listing, in its order. */
  lemma SprintOptions(d: ClientData)
    ensures |OptionsOf(Some(d)).sprints| == |d.availableSprints.GetOr([])|
    ensures forall i | 0 <= i < |d.availableSprints.GetOr([])| ::
      OptionsOf(Some(d)).sprints[i] == d.availableSprints.value[i].name
  {
  }
}
