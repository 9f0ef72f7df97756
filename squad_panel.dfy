/**
 * The squad detail panel: the squad's sprints, the sprint selected first,
 * the squad's tasks in that sprint, their story points by status and the
 * squad's alerts.
 */
module SquadPanel {
  import opened Wrappers
  import opened Lists
  import opened DashboardTypes
  import SquadFold

  /** A JavaScript string is truthy when it is there and not empty. */
  predicate TruthyText(s: Option<string>) {
    s.Some? && s.value != ""
  }

  /** A JavaScript number is truthy when it is there and not zero. */
  predicate TruthyId(n: Option<int>) {
    n.Some? && n.value != 0
  }

  /** The project key when both carry one, else the board id when both do, else no match. */
  predicate BelongsTo(squad: SquadView, sprint: SprintInfo) {
    if TruthyText(squad.projectKey) && TruthyText(sprint.projectKey) then
      sprint.projectKey.value == squad.projectKey.value
    else if TruthyId(squad.boardId) && TruthyId(sprint.boardId) then
      sprint.boardId.value == squad.boardId.value
    else
      false
  }

  function SquadSprints(squad: SquadView, available: seq<SprintInfo>): seq<SprintInfo> {
    Filter(available, (s: SprintInfo) => BelongsTo(squad, s))
  }

  /** A sprint is listed iff it belongs to the squad; the listing order is kept. */
  lemma SquadSprintsMatch(squad: SquadView, available: seq<SprintInfo>)
    ensures forall s :: s in SquadSprints(squad, available) <==> s in available && BelongsTo(squad, s)
    ensures squad.boardId.None? && squad.projectKey.None? ==> SquadSprints(squad, available) == []
  {
    FilterMembers(available, (s: SprintInfo) => BelongsTo(squad, s));
    if squad.boardId.None? && squad.projectKey.None? {
      var ss := SquadSprints(squad, available);
      if ss != [] {
        assert ss[0] in ss;
      }
    }
  }

  /** `squadSprints[0]?.name || ''`. */
  function InitialSprint(sprints: seq<SprintInfo>): (name: string)
    ensures sprints == [] ==> name == ""
    ensures sprints != [] ==> name == sprints[0].name
  {
    if sprints == [] then "" else sprints[0].name
  }

  /** The squad's tasks, in the selected sprint when one is selected. */
  predicate InSquad(squad: SquadView, selected: string, t: TaskItem) {
    t.squad == squad.name && (selected == "" || t.sprint == selected)
  }

  function SquadTasks(squad: SquadView, selected: string, tasks: seq<TaskItem>): seq<TaskItem> {
    Filter(tasks, (t: TaskItem) => InSquad(squad, selected, t))
  }

  function SquadAlerts(squad: SquadView, alerts: seq<Alert>): seq<Alert> {
    Filter(alerts, (a: Alert) => a.squad == squad.name)
  }

  /** The panel's tasks and alerts are exactly the squad's, in their order. */
  lemma SquadItems(squad: SquadView, selected: string, tasks: seq<TaskItem>, alerts: seq<Alert>)
    ensures forall t :: t in SquadTasks(squad, selected, tasks) <==> t in tasks && InSquad(squad, selected, t)
    ensures forall a :: a in SquadAlerts(squad, alerts) <==> a in alerts && a.squad == squad.name
  {
    FilterMembers(tasks, (t: TaskItem) => InSquad(squad, selected, t));
    FilterMembers(alerts, (a: Alert) => a.squad == squad.name);
  }

  datatype Bucket = DoneBucket | ActiveBucket | TodoBucket

  /** The reducer's test: Done, then In Progress or In Review, then anything else. */
  function BucketOf(status: string): Bucket {
    if status == "Done" then DoneBucket
    else if status == "In Progress" || status == "In Review" then ActiveBucket
    else TodoBucket
  }

  /** The reducer's step. */
  function AddTask(acc: SquadFold.Buckets, t: TaskItem): SquadFold.Buckets {
    match BucketOf(t.status)
    case DoneBucket => acc.(done := acc.done + t.storyPoints)
    case ActiveBucket => acc.(inProgress := acc.inProgress + t.storyPoints)
    case TodoBucket => acc.(todo := acc.todo + t.storyPoints)
  }

  /** `filteredDistribution`: the reduce over the tasks, from the first. */
  function Distribution(tasks: seq<TaskItem>): SquadFold.Buckets
    decreases |tasks|
  {
    if tasks == [] then SquadFold.Buckets(0, 0, 0)
    else AddTask(Distribution(tasks[..|tasks| - 1]), tasks[|tasks| - 1])
  }

  function TotalPoints(tasks: seq<TaskItem>): nat
    decreases |tasks|
  {
    if tasks == [] then 0 else TotalPoints(tasks[..|tasks| - 1]) + tasks[|tasks| - 1].storyPoints
  }

  function DonePoints(tasks: seq<TaskItem>): nat
    decreases |tasks|
  {
    if tasks == [] then 0
    else
      var last := tasks[|tasks| - 1];
      DonePoints(tasks[..|tasks| - 1]) + if BucketOf(last.status) == DoneBucket then last.storyPoints else 0
  }

  /** Every story point lands in exactly one bucket. */
  lemma {:induction false} DistributionSum(tasks: seq<TaskItem>)
    ensures Distribution(tasks).Sum() == TotalPoints(tasks)
    decreases |tasks|
  {
    if tasks != [] {
      var init, last := tasks[..|tasks| - 1], tasks[|tasks| - 1];
      DistributionSum(init);
      assert Distribution(tasks) == AddTask(Distribution(init), last);
      assert TotalPoints(tasks) == TotalPoints(init) + last.storyPoints;
    }
  }

  /** The Done bucket holds exactly the points of the Done tasks. */
  lemma {:induction false} DistributionDone(tasks: seq<TaskItem>)
    ensures Distribution(tasks).done == DonePoints(tasks)
    decreases |tasks|
  {
    if tasks != [] {
      var init, last := tasks[..|tasks| - 1], tasks[|tasks| - 1];
      DistributionDone(init);
      assert Distribution(tasks) == AddTask(Distribution(init), last);
    }
  }

  /** The Done points never exceed all the points. */
  lemma {:induction false} DonePointsBound(tasks: seq<TaskItem>)
    ensures DonePoints(tasks) <= TotalPoints(tasks)
    decreases |tasks|
  {
    if tasks != [] {
      DonePointsBound(tasks[..|tasks| - 1]);
    }
  }

  /** `filteredCompletionPercentage`: Done over all points, rounded, or 0. */
  function Completion(tasks: seq<TaskItem>): (r: nat)
    ensures r <= 100
    ensures TotalPoints(tasks) == 0 ==> r == 0
    ensures TotalPoints(tasks) > 0 && DonePoints(tasks) == TotalPoints(tasks) ==> r == 100
  {
    var d := Distribution(tasks);
    DistributionSum(tasks);
    DistributionDone(tasks);
    DonePointsBound(tasks);
    if d.Sum() > 0 then SquadFold.RoundPct(d.done, d.Sum()) else 0
  }
}
