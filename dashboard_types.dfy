/**
 * The records the proxy sends to the browser and the dashboard reads back:
 * tasks, alerts, sprint descriptions and the squad fields the list logic uses.
 */
module DashboardTypes {
  import opened Wrappers

  /** One row of the task table. `status` and `priority` are display names. */
  datatype TaskItem = TaskItem(
    id: string,
    key: string,
    summary: string,
    squad: string,
    assignee: string,
    status: string,
    priority: string,
    storyPoints: nat,
    kind: string,
    sprint: string)

  datatype AlertKind = Critical | Warning

  datatype Alert = Alert(
    id: string,
    kind: AlertKind,
    squad: string,
    message: string,
    storyPointsAffected: nat)

  /**
   * A sprint as the dashboard lists it. `boardId` and `projectKey` are the
   * optional links the squad panel matches on.
   */
  datatype SprintInfo = SprintInfo(
    id: string,
    name: string,
    number: int,
    startDate: string,
    endDate: string,
    totalStoryPoints: nat,
    completedStoryPoints: nat,
    goal: string,
    boardId: Option<int>,
    projectKey: Option<string>)

  datatype VelocityPoint = VelocityPoint(sprint: string, points: int)

  /** The fields of a squad record that the dashboard's list logic reads. */
  datatype SquadView = SquadView(
    name: string,
    boardId: Option<int>,
    projectKey: Option<string>,
    completed: nat,
    total: nat,
    velocityHistory: seq<VelocityPoint>,
    capacity: int)
}
