/**
 * The Jira Agile REST entities the proxy reads: boards, sprints and issues.
 * Optional JSON members are `Option`s; story points are natural numbers.
 */
module JiraTypes {
  import opened Wrappers

  datatype BoardKind = Scrum | Kanban

  datatype Board = Board(id: int, name: string, kind: BoardKind)

  datatype SprintState = Active | Closed | Future

  datatype Sprint = Sprint(
    id: int,
    name: string,
    state: SprintState,
    startDate: Option<string>,
    endDate: Option<string>,
    goal: Option<string>)

  /**
   * The fields of an issue the dashboard looks at. `status`, `priority`,
   * `assignee` and `issueType` hold the nested `name` / `displayName`.
   * `flagged` is whatever JSON value Jira sent, reduced to "is it `true`".
   */
  datatype IssueFields = IssueFields(
    summary: Option<string>,
    status: Option<string>,
    priority: Option<string>,
    assignee: Option<string>,
    issueType: Option<string>,
    created: string,
    resolutionDate: Option<string>,
    flaggedTrue: bool,
    storyPointsField: Option<nat>,
    customfield10028: Option<nat>,
    customfield10016: Option<nat>)

  datatype Issue = Issue(id: string, key: string, fields: IssueFields)
}
